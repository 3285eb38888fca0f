/** The collection cycle: inventory, one isolated step per cluster, and the verdict (app/adapter.py). */
module Adapter {
  import opened Common
  import opened Constants
  import opened Server
  import opened SuiteApi
  import opened Scoring
  import opened Thresholds
  import opened Traversal
  import opened Cluster
  import opened Pipeline
  import opened BulkTheorems
  import opened Gathering
  import opened Fetching
  import opened NativeProjection
  import opened Projections

  // ----- settings -----

  /** A numeric setting; one that is unreadable or out of range is the default. */
  function NumberSetting(raw: Option<real>, default: real, low: real, high: Option<real>): real {
    if raw.None? || raw.value < low || (high.Some? && raw.value > high.value) then default else raw.value
  }

  function SettingsOf(cpuPct: Option<real>, memoryPct: Option<real>, memoryCapGb: Option<real>): MonsterVmSettings {
    MonsterVmSettings(
      NumberSetting(cpuPct, 50.0, 1.0, Some(100.0)),
      NumberSetting(memoryPct, 40.0, 1.0, Some(100.0)),
      NumberSetting(memoryCapGb, 256.0, 1.0, None))
  }

  // ----- the result of a cycle -----

  datatype CollectError = InventoryFailed | Unexpected | AllClustersFailed(count: nat) | EveryCallFailed(failures: nat)

  /** One projection onto one native object. */
  datatype Publication = Publication(key: ResourceKey, metrics: seq<(string, real)>, properties: seq<(string, string)>)

  ghost function MetricsFor(published: seq<Publication>, key: ResourceKey): seq<(string, real)> {
    if published == [] then []
    else
      var last := published[|published| - 1];
      MetricsFor(published[..|published| - 1], key) + if last.key == key then last.metrics else []
  }

  ghost function PropertiesFor(published: seq<Publication>, key: ResourceKey): seq<(string, string)> {
    if published == [] then []
    else
      var last := published[|published| - 1];
      PropertiesFor(published[..|published| - 1], key) + if last.key == key then last.properties else []
  }

  /** What the lookup of a native object makes of a resource key: an object, a logged skip, or an exception it does not handle. */
  datatype Lookup = Identified | Skipped | Unhandled

  predicate Usable(key: Option<ResourceKey>, lookup: ResourceKey -> Lookup) {
    key.Some? && lookup(key.value) == Identified
  }

  predicate Raising(key: Option<ResourceKey>, lookup: ResourceKey -> Lookup) {
    key.Some? && lookup(key.value) == Unhandled
  }

  class CollectResult {
    var objects: map<ResourceKey, NativeObject>
    var error: Option<CollectError>
    ghost var published: seq<Publication>

    /** Every object holds exactly what was published under its key, and keys do not share objects. */
    ghost predicate Valid()
      reads this`objects, this`published, objects.Values
    {
      && (forall a, b :: a in objects && b in objects && a != b ==> objects[a] != objects[b])
      && (forall k :: k in objects ==>
            objects[k].metrics == MetricsFor(published, k) && objects[k].properties == PropertiesFor(published, k))
      && (forall i :: 0 <= i < |published| ==> published[i].key in objects)
    }

    constructor ()
      ensures Valid() && objects == map[] && error == None && published == []
    {
      objects, error, published := map[], None, [];
    }

    /**
     The object of a resource key, made on first use; none for a missing or unusable key. The lookup
     raises when the key makes it raise something that it does not handle itself.
     */
    method NativeObjectOf(key: Option<ResourceKey>, lookup: ResourceKey -> Lookup) returns (raised: bool, target: NativeObject?)
      requires Valid()
      modifies this`objects
      ensures Valid()
      ensures raised <==> Raising(key, lookup)
      ensures target != null <==> Usable(key, lookup)
      ensures target == null ==> objects == old(objects)
      ensures target != null ==>
        && objects.Keys == old(objects).Keys + {key.value} && objects[key.value] == target
        && (forall k :: k in old(objects) ==> objects[k] == old(objects)[k])
        && (key.value in old(objects) || fresh(target))
    {
      if key.None? || lookup(key.value) == Skipped {
        return false, null;
      }
      if lookup(key.value) == Unhandled {
        return true, null;
      }
      raised := false;
      if key.value in objects {
        target := objects[key.value];
        return;
      }
      NothingFor(published, key.value);
      var made := new NativeObject();
      objects := objects[key.value := made];
      target := made;
    }

    /** Notes a projection that has just been written. */
    ghost method Note(p: Publication)
      requires p.key in objects
      requires forall a, b :: a in objects && b in objects && a != b ==> objects[a] != objects[b]
      requires forall i :: 0 <= i < |published| ==> published[i].key in objects
      requires forall k :: k in objects ==>
        && objects[k].metrics == MetricsFor(published, k) + (if k == p.key then p.metrics else [])
        && objects[k].properties == PropertiesFor(published, k) + (if k == p.key then p.properties else [])
      modifies this`published
      ensures Valid() && published == old(published) + [p]
    {
      hide MetricsFor, PropertiesFor;
      forall k | k in objects
        ensures objects[k].metrics == MetricsFor(published + [p], k)
        ensures objects[k].properties == PropertiesFor(published + [p], k)
      {
        PublishedStep(published, p, k);
      }
      published := published + [p];
    }
  }

  lemma {:induction false} NothingFor(published: seq<Publication>, key: ResourceKey)
    requires forall i :: 0 <= i < |published| ==> published[i].key != key
    ensures MetricsFor(published, key) == [] && PropertiesFor(published, key) == []
  {
    if published != [] {
      NothingFor(published[..|published| - 1], key);
    }
  }

  lemma PublishedStep(published: seq<Publication>, last: Publication, key: ResourceKey)
    ensures MetricsFor(published + [last], key) == MetricsFor(published, key) + if last.key == key then last.metrics else []
    ensures PropertiesFor(published + [last], key) == PropertiesFor(published, key) + if last.key == key then last.properties else []
  {
    assert (published + [last])[..|published|] == published;
  }

  /** What projecting one scored dictionary publishes: nothing without a usable key. */
  ghost function Published(key: Option<ResourceKey>, lookup: ResourceKey -> Lookup, values: map<MetricKey, Option<real>>,
                           scope: Scope<MetricKey>, mapping: seq<Row<MetricKey>>): seq<Publication> {
    if !Usable(key, lookup) then []
    else
      var scored := ScoredOf(values, scope);
      [Publication(key.value, Metrics(mapping, values, scored), Properties(mapping, values, scored))]
  }

  ghost function ScoredOf(values: map<MetricKey, Option<real>>, scope: Scope<MetricKey>): Scored<MetricKey> {
    Scored(CompositeScore(values, scope), CompositeBand(values, scope), Bands(values, scope))
  }

  ghost function AttributeCount(published: seq<Publication>): nat {
    if published == [] then 0
    else
      var last := published[|published| - 1];
      AttributeCount(published[..|published| - 1]) + |last.metrics| + |last.properties|
  }

  /** An order in which a dictionary may be iterated. */
  method IterationOrder<K(==), V>(values: map<K, V>) returns (order: seq<K>)
    ensures Enumerates(order, values.Keys)
  {
    order := [];
    var todo := values.Keys;
    while todo != {}
      invariant todo <= values.Keys
      invariant Enumerates(order, values.Keys - todo)
    {
      var k :| k in todo;
      order := order + [k];
      todo := todo - {k};
    }
    assert values.Keys - todo == values.Keys;
  }

  /** Scores a dictionary and writes it onto the object of a key. */
  method ScoreAndProject(result: CollectResult, key: Option<ResourceKey>, lookup: ResourceKey -> Lookup,
                         values: map<MetricKey, Option<real>>, scope: Scope<MetricKey>, mapping: seq<Row<MetricKey>>)
    returns (raised: bool, count: nat)
    requires result.Valid()
    modifies result`objects, result`published, result.objects.Values
    ensures result.Valid() && fresh(result.objects.Values - old(result.objects.Values))
    ensures raised <==> Raising(key, lookup)
    ensures result.published == old(result.published) + Published(key, lookup, values, scope, mapping)
    ensures count == AttributeCount(Published(key, lookup, values, scope, mapping))
    ensures count > 0 <==> Usable(key, lookup)
  {
    hide CompositeScore, CompositeBand, Bands, Metrics, Properties, MetricsFor, PropertiesFor, AttributeCount, Published;
    PublishedIs(key, lookup, values, scope, mapping);
    var order := IterationOrder(values);
    var scored := ComputeComposite(order, values, scope);
    var target;
    raised, target := result.NativeObjectOf(key, lookup);
    count := Project(target, values, scored, mapping);
    if target != null {
      result.Note(Publication(key.value, Metrics(mapping, values, scored), Properties(mapping, values, scored)));
    }
  }

  lemma PublishedIs(key: Option<ResourceKey>, lookup: ResourceKey -> Lookup, values: map<MetricKey, Option<real>>,
                    scope: Scope<MetricKey>, mapping: seq<Row<MetricKey>>)
    ensures var published := Published(key, lookup, values, scope, mapping);
      var scored := ScoredOf(values, scope);
      if !Usable(key, lookup) then published == [] && AttributeCount(published) == 0
      else
        && published == [Publication(key.value, Metrics(mapping, values, scored), Properties(mapping, values, scored))]
        && |published| == 1
        && AttributeCount(published) == |Metrics(mapping, values, scored)| + |Properties(mapping, values, scored)| > 0
  {
    var published := Published(key, lookup, values, scope, mapping);
    if published != [] {
      assert published[..0] == [];
    }
  }

  // ----- one cluster -----

  /** The native identities the inventory found, and what the lookup makes of them. */
  datatype Natives = Natives(clusterKeys: map<Id, ResourceKey>, hostKeys: map<Id, ResourceKey>, lookup: ResourceKey -> Lookup)

  function KeyOf(keys: map<Id, ResourceKey>, id: Id): Option<ResourceKey> {
    if id in keys then Some(keys[id]) else None
  }

  /** What the first n hosts of a snapshot publish. */
  ghost function HostPublications(snap: Snapshot, monster: MonsterVmSettings, natives: Natives, n: nat): seq<Publication>
    requires n <= |snap.hosts|
  {
    if n == 0 then []
    else
      HostPublications(snap, monster, natives, n - 1) + HostPublication(snap, monster, natives, snap.hosts[n - 1].id)
  }

  ghost function HostPublication(snap: Snapshot, monster: MonsterVmSettings, natives: Natives, hostId: Id): seq<Publication> {
    Published(KeyOf(natives.hostKeys, hostId), natives.lookup, HostMetrics(snap, monster, hostId), HOST_SCOPE, HOST_PROJECTION)
  }

  lemma {:induction false} AttributeCountJoin(a: seq<Publication>, b: seq<Publication>)
    ensures AttributeCount(a + b) == AttributeCount(a) + AttributeCount(b)
  {
    if b == [] {
      assert a + b == a;
    } else {
      var n := |b| - 1;
      assert (a + b)[..|a| + n] == a + b[..n];
      AttributeCountJoin(a, b[..n]);
    }
  }

  /** The totals a cycle logs. */
  datatype Summary = Summary(withHosts: nat, clustersProjected: nat, totalHosts: nat, hostsProjected: nat, attributes: nat)

  /** The records of a walk are those of the snapshot's hosts, in order. */
  ghost predicate RecordsOf(records: seq<HostRecord>, snap: Snapshot, monster: MonsterVmSettings) {
    && |records| == |snap.hosts|
    && forall i :: 0 <= i < |records| ==>
         records[i] == HostRecord(snap.hosts[i].id, snap.hosts[i].name, HostMetrics(snap, monster, snap.hosts[i].id))
  }

  /** Totals after some hosts published: one host and so many attributes more for each publication. */
  ghost function HostTotals(s: Summary, published: seq<Publication>): Summary {
    s.(hostsProjected := s.hostsProjected + |published|, attributes := s.attributes + AttributeCount(published))
  }

  /** Totals after one collected cluster with so many hosts. */
  ghost function ClusterTotals(s: Summary, hosts: nat, own: seq<Publication>, published: seq<Publication>): Summary {
    Summary(s.withHosts + if hosts > 0 then 1 else 0, s.clustersProjected + |own|, s.totalHosts + hosts,
            s.hostsProjected + |published|, s.attributes + AttributeCount(own) + AttributeCount(published))
  }

  /** How many hosts come before the first whose lookup raises: all of them when none does. */
  function HostsReached(hosts: seq<Resource>, natives: Natives): (n: nat)
    ensures n <= |hosts|
    ensures n < |hosts| ==> Raising(KeyOf(natives.hostKeys, hosts[n].id), natives.lookup)
    ensures forall i :: 0 <= i < n ==> !Raising(KeyOf(natives.hostKeys, hosts[i].id), natives.lookup)
  {
    if hosts == [] || Raising(KeyOf(natives.hostKeys, hosts[0].id), natives.lookup) then 0
    else 1 + HostsReached(hosts[1..], natives)
  }

  lemma ReachedIs(hosts: seq<Resource>, natives: Natives, n: nat)
    requires n <= |hosts|
    requires n < |hosts| ==> Raising(KeyOf(natives.hostKeys, hosts[n].id), natives.lookup)
    requires forall i :: 0 <= i < n ==> !Raising(KeyOf(natives.hostKeys, hosts[i].id), natives.lookup)
    ensures HostsReached(hosts, natives) == n
  {
    hide KeyOf, Raising;
  }

  /** The hosts of one cluster, projected in order, up to the first whose lookup raises. */
  method ProjectHosts(result: CollectResult, snap: Snapshot, monster: MonsterVmSettings, natives: Natives,
                      records: seq<HostRecord>, summary: Summary)
    returns (raised: bool, next: Summary)
    requires result.Valid() && RecordsOf(records, snap, monster)
    modifies result`objects, result`published, result.objects.Values
    ensures result.Valid() && fresh(result.objects.Values - old(result.objects.Values))
    ensures raised <==> HostsReached(snap.hosts, natives) < |snap.hosts|
    ensures result.published
            == old(result.published) + HostPublications(snap, monster, natives, HostsReached(snap.hosts, natives))
    ensures next == HostTotals(summary, HostPublications(snap, monster, natives, HostsReached(snap.hosts, natives)))
  {
    hide *;
    next := summary;
    ghost var start := result.published;
    NoneAdded(snap, monster, natives, records, summary);
    for i := 0 to |records|
      invariant |records| == |snap.hosts|
      invariant result.Valid() && fresh(result.objects.Values - old(result.objects.Values))
      invariant forall j :: 0 <= j < i ==> !Raising(KeyOf(natives.hostKeys, snap.hosts[j].id), natives.lookup)
      invariant result.published == start + HostPublications(snap, monster, natives, i)
      invariant next == HostTotals(summary, HostPublications(snap, monster, natives, i))
    {
      RecordAt(records, snap, monster, i);
      HostPublicationsStep(snap, monster, natives, i, summary);
      var key := KeyOf(natives.hostKeys, records[i].id);
      var count;
      raised, count := ScoreAndProject(result, key, natives.lookup, records[i].values, HOST_SCOPE, HOST_PROJECTION);
      if raised {
        NothingWhenRaising(snap, monster, natives, i);
        ReachedIs(snap.hosts, natives, i);
        return;
      }
      if count > 0 {
        next := next.(hostsProjected := next.hostsProjected + 1, attributes := next.attributes + count);
      }
    }
    ReachedIs(snap.hosts, natives, |snap.hosts|);
    raised := false;
  }

  /** A raising lookup publishes nothing. */
  lemma NothingWhenRaising(snap: Snapshot, monster: MonsterVmSettings, natives: Natives, i: nat)
    requires i < |snap.hosts| && Raising(KeyOf(natives.hostKeys, snap.hosts[i].id), natives.lookup)
    ensures Published(KeyOf(natives.hostKeys, snap.hosts[i].id), natives.lookup, HostMetrics(snap, monster, snap.hosts[i].id),
                      HOST_SCOPE, HOST_PROJECTION) == []
  {
    hide HostMetrics, KeyOf, HOST_SCOPE, HOST_PROJECTION;
  }

  lemma NoneAdded(snap: Snapshot, monster: MonsterVmSettings, natives: Natives, records: seq<HostRecord>, summary: Summary)
    requires RecordsOf(records, snap, monster)
    ensures |records| == |snap.hosts|
    ensures HostPublications(snap, monster, natives, 0) == []
    ensures HostTotals(summary, HostPublications(snap, monster, natives, 0)) == summary
  {
  }

  lemma RecordAt(records: seq<HostRecord>, snap: Snapshot, monster: MonsterVmSettings, i: nat)
    requires RecordsOf(records, snap, monster) && i < |records|
    ensures |records| == |snap.hosts|
    ensures records[i] == HostRecord(snap.hosts[i].id, snap.hosts[i].name, HostMetrics(snap, monster, snap.hosts[i].id))
  {
  }

  /** One more host: what it publishes and what it adds to the totals. */
  lemma HostPublicationsStep(snap: Snapshot, monster: MonsterVmSettings, natives: Natives, i: nat, s: Summary)
    requires i < |snap.hosts|
    ensures var own := Published(KeyOf(natives.hostKeys, snap.hosts[i].id), natives.lookup,
                                 HostMetrics(snap, monster, snap.hosts[i].id), HOST_SCOPE, HOST_PROJECTION);
      var before := HostTotals(s, HostPublications(snap, monster, natives, i));
      var count := AttributeCount(own);
      && HostPublications(snap, monster, natives, i + 1) == HostPublications(snap, monster, natives, i) + own
      && HostTotals(s, HostPublications(snap, monster, natives, i + 1))
         == if count > 0 then before.(hostsProjected := before.hostsProjected + 1, attributes := before.attributes + count)
            else before
  {
    hide HostMetrics, Published, AttributeCount, KeyOf, HOST_SCOPE, HOST_PROJECTION;
    var values := HostMetrics(snap, monster, snap.hosts[i].id);
    var key := KeyOf(natives.hostKeys, snap.hosts[i].id);
    var own := Published(key, natives.lookup, values, HOST_SCOPE, HOST_PROJECTION);
    PublishedIs(key, natives.lookup, values, HOST_SCOPE, HOST_PROJECTION);
    AttributeCountJoin(HostPublications(snap, monster, natives, i), own);
  }

  /** How many hosts of a snapshot are projected: none when the cluster's own lookup raises. */
  function ProjectedHosts(snap: Snapshot, natives: Natives): (n: nat)
    ensures n <= |snap.hosts|
  {
    if Raising(KeyOf(natives.clusterKeys, snap.clusterId), natives.lookup) then 0 else HostsReached(snap.hosts, natives)
  }

  /** Some lookup of this snapshot's cluster or hosts raises, and so does the iteration, part of the way through. */
  predicate Interrupted(snap: Snapshot, natives: Natives) {
    || Raising(KeyOf(natives.clusterKeys, snap.clusterId), natives.lookup)
    || exists i :: 0 <= i < |snap.hosts| && Raising(KeyOf(natives.hostKeys, snap.hosts[i].id), natives.lookup)
  }

  /**
   What one collected cluster publishes: its own values, then those of its hosts in order. An
   interrupted iteration leaves what it had published until then.
   */
  ghost function ClusterPublications(snap: Snapshot, monster: MonsterVmSettings, parse: string -> Option<real>,
                                     natives: Natives): seq<Publication> {
    ClusterPublication(snap, monster, parse, natives) + HostPublications(snap, monster, natives, ProjectedHosts(snap, natives))
  }

  ghost function ClusterPublication(snap: Snapshot, monster: MonsterVmSettings, parse: string -> Option<real>,
                                    natives: Natives): seq<Publication> {
    Published(KeyOf(natives.clusterKeys, snap.clusterId), natives.lookup, ClusterValues(snap, monster, parse),
              CLUSTER_SCOPE, CLUSTER_PROJECTION)
  }

  /** The totals after a snapshot was read: its hosts, and exactly what was published of it, are added. */
  ghost function TotalsAfter(s: Summary, snap: Snapshot, monster: MonsterVmSettings, parse: string -> Option<real>,
                             natives: Natives): Summary {
    ClusterTotals(s, |snap.hosts|, ClusterPublication(snap, monster, parse, natives),
                  HostPublications(snap, monster, natives, ProjectedHosts(snap, natives)))
  }

  /** The cluster's own projection, then its hosts'. */
  method PublishCluster(result: CollectResult, snap: Snapshot, monster: MonsterVmSettings, parse: string -> Option<real>,
                        natives: Natives, values: map<MetricKey, Option<real>>, records: seq<HostRecord>, summary: Summary)
    returns (raised: bool, next: Summary)
    requires result.Valid() && RecordsOf(records, snap, monster) && values == ClusterValues(snap, monster, parse)
    modifies result`objects, result`published, result.objects.Values
    ensures result.Valid() && fresh(result.objects.Values - old(result.objects.Values))
    ensures raised <==> Interrupted(snap, natives)
    ensures result.published == old(result.published) + ClusterPublications(snap, monster, parse, natives)
    ensures next == TotalsAfter(summary, snap, monster, parse, natives)
  {
    hide *;
    next := summary.(totalHosts := summary.totalHosts + |records|);
    if records != [] {
      next := next.(withHosts := next.withHosts + 1);
    }
    var key := KeyOf(natives.clusterKeys, snap.clusterId);
    var count;
    raised, count := ScoreAndProject(result, key, natives.lookup, values, CLUSTER_SCOPE, CLUSTER_PROJECTION);
    OwnPublication(snap, monster, parse, natives);
    if raised {
      ClusterStep(snap, monster, parse, natives, records, summary, next);
      return;
    }
    if count > 0 {
      next := next.(clustersProjected := next.clustersProjected + 1, attributes := next.attributes + count);
    }
    ClusterStep(snap, monster, parse, natives, records, summary, next);
    raised, next := ProjectHosts(result, snap, monster, natives, records, next);
  }

  lemma OwnPublication(snap: Snapshot, monster: MonsterVmSettings, parse: string -> Option<real>, natives: Natives)
    ensures var key := KeyOf(natives.clusterKeys, snap.clusterId);
      var own := Published(key, natives.lookup, ClusterValues(snap, monster, parse), CLUSTER_SCOPE, CLUSTER_PROJECTION);
      && ClusterPublication(snap, monster, parse, natives) == own
      && (Raising(key, natives.lookup) ==> own == [] && AttributeCount(own) == 0)
      && |own| == if AttributeCount(own) > 0 then 1 else 0
  {
    hide ClusterValues, KeyOf, Published, AttributeCount, CLUSTER_SCOPE, CLUSTER_PROJECTION;
    PublishedIs(KeyOf(natives.clusterKeys, snap.clusterId), natives.lookup, ClusterValues(snap, monster, parse),
                CLUSTER_SCOPE, CLUSTER_PROJECTION);
  }

  /** After the cluster's own projection, which may have raised; then the hosts follow, or not. */
  lemma ClusterStep(snap: Snapshot, monster: MonsterVmSettings, parse: string -> Option<real>, natives: Natives,
                    records: seq<HostRecord>, s: Summary, next: Summary)
    requires RecordsOf(records, snap, monster)
    requires
      var count := AttributeCount(ClusterPublication(snap, monster, parse, natives));
      next == Summary(s.withHosts + if records != [] then 1 else 0, s.clustersProjected + if count > 0 then 1 else 0,
                      s.totalHosts + |records|, s.hostsProjected, s.attributes + count)
    ensures var hosts := HostPublications(snap, monster, natives, ProjectedHosts(snap, natives));
      var published := ClusterPublications(snap, monster, parse, natives);
      && published == ClusterPublication(snap, monster, parse, natives) + hosts
      && HostTotals(next, hosts) == TotalsAfter(s, snap, monster, parse, natives)
    ensures if Raising(KeyOf(natives.clusterKeys, snap.clusterId), natives.lookup)
      then Interrupted(snap, natives) && ClusterPublications(snap, monster, parse, natives) == []
           && next == TotalsAfter(s, snap, monster, parse, natives)
      else ProjectedHosts(snap, natives) == HostsReached(snap.hosts, natives)
           && (Interrupted(snap, natives) <==> HostsReached(snap.hosts, natives) < |snap.hosts|)
  {
    hide *;
    var own, hosts := ClusterPublication(snap, monster, parse, natives), HostPublications(snap, monster, natives, ProjectedHosts(snap, natives));
    OwnPublication(snap, monster, parse, natives);
    AsTotals(snap, monster, parse, natives, records, s);
    AddedTotals(s, |records|, own, hosts, next);
    WhoIsProjected(snap, monster, natives);
  }

  lemma AsTotals(snap: Snapshot, monster: MonsterVmSettings, parse: string -> Option<real>, natives: Natives,
                 records: seq<HostRecord>, s: Summary)
    requires RecordsOf(records, snap, monster)
    ensures var own := ClusterPublication(snap, monster, parse, natives);
      var hosts := HostPublications(snap, monster, natives, ProjectedHosts(snap, natives));
      && |records| == |snap.hosts|
      && ClusterPublications(snap, monster, parse, natives) == own + hosts
      && TotalsAfter(s, snap, monster, parse, natives) == ClusterTotals(s, |records|, own, hosts)
  {
    hide ClusterPublication, HostPublications, HostMetrics, ProjectedHosts, AttributeCount;
  }

  lemma AddedTotals(s: Summary, records: nat, own: seq<Publication>, hosts: seq<Publication>, next: Summary)
    requires |own| == if AttributeCount(own) > 0 then 1 else 0
    requires next == Summary(s.withHosts + if records > 0 then 1 else 0, s.clustersProjected + |own|, s.totalHosts + records,
                             s.hostsProjected, s.attributes + AttributeCount(own))
    ensures HostTotals(next, hosts) == ClusterTotals(s, records, own, hosts)
    ensures HostTotals(next, []) == next
  {
  }

  /** Which hosts are projected, and when the iteration is interrupted. */
  lemma WhoIsProjected(snap: Snapshot, monster: MonsterVmSettings, natives: Natives)
    ensures if Raising(KeyOf(natives.clusterKeys, snap.clusterId), natives.lookup)
      then Interrupted(snap, natives) && HostPublications(snap, monster, natives, ProjectedHosts(snap, natives)) == []
      else ProjectedHosts(snap, natives) == HostsReached(snap.hosts, natives)
           && (Interrupted(snap, natives) <==> HostsReached(snap.hosts, natives) < |snap.hosts|)
  {
    hide KeyOf, Raising, HostPublication;
  }

  /**
   One iteration of the cluster loop, for every server. It raises when reading the snapshot does, and then
   nothing at all is published for the cluster, or when a lookup does, and then what came before stays
   published. Either way every completed stats read has left its newest sample.
   */
  method CollectCluster(api: Api, stats: CallStats, times: nat -> ReadTimes, result: CollectResult, clusterId: Id,
                        monster: MonsterVmSettings, parse: string -> Option<real>, natives: Natives, summary: Summary)
    returns (raised: bool, next: Summary)
    requires stats.Valid() && result.Valid()
    modifies stats, result`objects, result`published, result.objects.Values
    ensures stats.Valid()
    ensures result.Valid() && fresh(result.objects.Values - old(result.objects.Values))
    ensures var g := Gather(api, clusterId, old(stats.calls), times(old(stats.calls)));
      stats.log == old(stats.log) + g.outcomes && stats.newestMs == Reference(g.run, old(stats.newestMs))
    ensures var snap := Judged(Gather(api, clusterId, old(stats.calls), times(old(stats.calls))), old(stats.newestMs));
      if snap.Raise? then
        raised && result.published == old(result.published) && result.objects == old(result.objects) && next == summary
      else
        && (raised <==> Interrupted(snap.value, natives))
        && result.published == old(result.published) + ClusterPublications(snap.value, monster, parse, natives)
        && next == TotalsAfter(summary, snap.value, monster, parse, natives)
  {
    hide *;
    LogIsCalls(stats);
    var fetched := FetchClusterSnapshot(api, stats, times(stats.calls), clusterId);
    if fetched.Raise? {
      return true, summary;
    }
    var values := GatherMetricValues(fetched.value, parse);
    var clusterVmMetrics, records := CollectClusterAndHostMetrics(fetched.value, monster);
    AsCollected(fetched.value, monster, parse, records);
    raised, next := PublishCluster(result, fetched.value, monster, parse, natives, values + clusterVmMetrics, records, summary);
  }

  lemma AsCollected(snap: Snapshot, monster: MonsterVmSettings, parse: string -> Option<real>, records: seq<HostRecord>)
    ensures ClusterOnlyMetrics(snap, parse) + ClusterMetrics(snap, monster) == ClusterValues(snap, monster, parse)
    ensures |records| == |snap.hosts|
      && (forall i :: 0 <= i < |records| ==>
            records[i] == HostRecord(snap.hosts[i].id, snap.hosts[i].name, HostMetrics(snap, monster, snap.hosts[i].id)))
      ==> RecordsOf(records, snap, monster)
  {
    hide HostMetrics, ClusterMetrics, ClusterOnlyMetrics;
  }
}
