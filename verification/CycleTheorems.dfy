/** What holds of every collection cycle. */
module CycleTheorems {
  import opened Common
  import opened Constants
  import opened Server
  import opened SuiteApi
  import opened Samples
  import opened Scoring
  import opened Thresholds
  import opened Traversal
  import opened TraversalTheorems
  import opened Cluster
  import opened Pipeline
  import opened BulkTheorems
  import opened Gathering
  import opened GatherTheorems
  import opened Worlds
  import opened NonInterference
  import opened Readings
  import opened NativeProjection
  import opened Projections
  import opened ProjectionTheorems
  import opened Adapter
  import opened Cycle

  // ----- settings -----

  /** `used` is the setting when it is given and in range, and otherwise its default. */
  predicate IsUsed(used: real, raw: Option<real>, default: real, high: Option<real>) {
    var usable := raw.Some? && raw.value >= 1.0 && (high.Some? ==> raw.value <= high.value);
    (usable ==> used == raw.value) && (!usable ==> used == default)
  }

  /**
   Whatever the settings hold, the walk gets valid ones: those in range as they are, and for every other one its own
   default of 50 and 40 percent and 256 GB.
   */
  lemma SettingsAlwaysValid(cpuPct: Option<real>, memoryPct: Option<real>, memoryCapGb: Option<real>)
    ensures ValidSettings(SettingsOf(cpuPct, memoryPct, memoryCapGb))
    ensures var used := SettingsOf(cpuPct, memoryPct, memoryCapGb);
      && IsUsed(used.cpuPct, cpuPct, 50.0, Some(100.0))
      && IsUsed(used.memoryPct, memoryPct, 40.0, Some(100.0))
      && IsUsed(used.memoryCapGb, memoryCapGb, 256.0, None)
  {
  }

  // ----- where the iterations lie in the log -----

  /** The requests of the iterations follow one another, and so do their outcomes. */
  lemma {:induction false} OutcomesPlaced(api: Api, times: nat -> ReadTimes, clusters: seq<Resource>, from: nat, first: int,
                                          steps: seq<Step>)
    requires Walk(api, times, clusters, from, first, steps)
    ensures from <= EndOf(steps, from) && |OutcomesOf(steps)| == EndOf(steps, from) - from
    ensures forall i :: 0 <= i < |steps| ==>
      && from <= steps[i].call && steps[i].End() <= EndOf(steps, from)
      && OutcomesOf(steps)[steps[i].call - from..steps[i].End() - from] == steps[i].gathered.outcomes
  {
    if steps != [] {
      hide *;
      var n := |steps| - 1;
      WalkInit(api, times, clusters, from, first, steps);
      OutcomesPlaced(api, times, clusters, from, first, steps[..n]);
      LastPlaced(api, times, clusters, from, first, steps);
      var init, last := OutcomesOf(steps[..n]), steps[n].gathered.outcomes;
      forall i | 0 <= i < |steps|
        ensures from <= steps[i].call && steps[i].End() <= EndOf(steps, from)
        ensures OutcomesOf(steps)[steps[i].call - from..steps[i].End() - from] == steps[i].gathered.outcomes
      {
        if i < n {
          assert steps[..n][i] == steps[i];
          StepEnd(steps[i]);
          PartOfFirst(init, last, steps[i].call - from, steps[i].End() - from);
        } else {
          assert (init + last)[|init|..] == last;
        }
      }
    }
  }

  /** The last iteration starts where the others end, and its outcomes come last. */
  lemma LastPlaced(api: Api, times: nat -> ReadTimes, clusters: seq<Resource>, from: nat, first: int, steps: seq<Step>)
    requires Walk(api, times, clusters, from, first, steps) && steps != []
    ensures var n := |steps| - 1;
      && steps[n].call == EndOf(steps[..n], from) && EndOf(steps, from) == steps[n].End()
      && steps[n].End() == steps[n].call + |steps[n].gathered.outcomes|
      && OutcomesOf(steps) == OutcomesOf(steps[..n]) + steps[n].gathered.outcomes
  {
    hide Gather, NewestOf;
    assert StepAt(api, times, clusters, from, first, steps, |steps| - 1);
  }

  lemma StepEnd(step: Step)
    ensures step.End() == step.call + |step.gathered.outcomes|
  {
  }

  lemma PartOfFirst<T>(first: seq<T>, second: seq<T>, from: nat, to: nat)
    requires from <= to <= |first|
    ensures (first + second)[from..to] == first[from..to]
  {
  }

  lemma {:induction false} WalkInit(api: Api, times: nat -> ReadTimes, clusters: seq<Resource>, from: nat, first: int, steps: seq<Step>)
    requires Walk(api, times, clusters, from, first, steps) && steps != []
    ensures Walk(api, times, clusters, from, first, steps[..|steps| - 1])
  {
    hide Gather, EndOf, NewestOf;
    var init := steps[..|steps| - 1];
    forall i | 0 <= i < |init| ensures StepAt(api, times, clusters, from, first, init, i) {
      assert StepAt(api, times, clusters, from, first, steps, i) && init[..i] == steps[..i] && init[i] == steps[i];
    }
  }

  lemma {:induction false} InSomeStep(api: Api, times: nat -> ReadTimes, clusters: seq<Resource>, from: nat, first: int,
                                      steps: seq<Step>, n: nat)
    requires Walk(api, times, clusters, from, first, steps) && from <= n < EndOf(steps, from)
    ensures exists i :: 0 <= i < |steps| && steps[i].call <= n < steps[i].End()
  {
    hide Gather, NewestOf;
    var m := |steps| - 1;
    if n < steps[m].call {
      assert StepAt(api, times, clusters, from, first, steps, m);
      WalkInit(api, times, clusters, from, first, steps);
      InSomeStep(api, times, clusters, from, first, steps[..m], n);
      var i :| 0 <= i < m && steps[..m][i].call <= n < steps[..m][i].End();
      assert steps[i] == steps[..m][i];
    }
  }

  /** Iteration i of a cycle made these requests, the first of which lists its cluster and the last of which are for stats. */
  lemma StepInLog(trace: Trace, api: Api, times: nat -> ReadTimes, log: seq<bool>, i: nat)
    requires WalkedFrom(trace, api, times, log) && i < |trace.steps|
    ensures var step := trace.steps[i];
      && trace.inventoryCalls <= step.call < step.StatsFrom() <= step.End() <= |log|
      && log[step.call..step.End()] == step.gathered.outcomes
      && log[step.call] == Succeeded(api.children(step.call, trace.clusters[i].id))
      && step.gathered == Gather(api, trace.clusters[i].id, step.call, times(step.call))
      && (step.gathered.shell.Value? ==> step.StatsFrom() < step.End() && OnlyPoweredOn(step.gathered.shell.value))
  {
    hide Gather, EndOf, NewestOf, OutcomesOf, OnlyPoweredOn;
    var step := trace.steps[i];
    OutcomesPlaced(api, times, trace.clusters, trace.inventoryCalls, 0, trace.steps);
    assert StepAt(api, times, trace.clusters, trace.inventoryCalls, 0, trace.steps, i);
    GatherStarts(api, trace.clusters[i].id, step.call, times(step.call));
    var outcomes := OutcomesOf(trace.steps);
    assert log == log[..trace.inventoryCalls] + outcomes;
    assert log[step.call..step.End()] == outcomes[step.call - trace.inventoryCalls..step.End() - trace.inventoryCalls];
    assert log[step.call] == log[step.call..step.End()][0];
  }

  /** Every request after the inventory is one of some iteration. */
  lemma StepOfCall(trace: Trace, api: Api, times: nat -> ReadTimes, log: seq<bool>, n: nat)
    requires WalkedFrom(trace, api, times, log) && trace.inventoryCalls <= n < |log|
    ensures exists i :: 0 <= i < |trace.steps| && trace.steps[i].call <= n < trace.steps[i].End()
  {
    hide Gather, NewestOf, StepAt;
    OutcomesPlaced(api, times, trace.clusters, trace.inventoryCalls, 0, trace.steps);
    assert |log| == EndOf(trace.steps, trace.inventoryCalls);
    InSomeStep(api, times, trace.clusters, trace.inventoryCalls, 0, trace.steps, n);
  }

  lemma NoStepsNoCalls(trace: Trace, api: Api, times: nat -> ReadTimes, log: seq<bool>)
    requires WalkedFrom(trace, api, times, log) && trace.clusters == []
    ensures |log| == trace.inventoryCalls
  {
    hide Walk;
  }

  // ----- the verdict -----

  /** Once the inventory is read, no more requests failed than were made since. */
  lemma FailuresWithinLaterCalls(trace: Trace, api: Api, times: nat -> ReadTimes, stats: CallStats)
    requires stats.Valid() && WalkedFrom(trace, api, times, stats.log)
    ensures stats.failures <= stats.calls - trace.inventoryCalls
    ensures stats.calls > trace.inventoryCalls && stats.failures == stats.calls - trace.inventoryCalls
            <==> AllFailedSince(stats.log, trace.inventoryCalls)
  {
    hide Walk, OutcomesOf, Failures;
    FailuresSince(stats.log, trace.inventoryCalls);
  }

  /**
   A cycle that read its inventory has no error exactly when it found no cluster, or some iteration was
   not lost and some later request succeeded.
   */
  lemma ErrorExactly(trace: Trace, api: Api, times: nat -> ReadTimes, log: seq<bool>)
    requires WalkedFrom(trace, api, times, log)
    ensures Verdict(trace, log) == None <==>
      || trace.clusters == []
      || ((exists i :: 0 <= i < |trace.steps| && !Lost(trace.steps[i], trace.inputs.natives))
          && exists n :: trace.inventoryCalls <= n < |log| && log[n])
  {
    hide Lost, Walk, OutcomesOf;
    if trace.clusters == [] {
      NoStepsNoCalls(trace, api, times, log);
    } else {
      StepInLog(trace, api, times, log, 0);
    }
  }

  /**
   No false alarm: a cycle in which some iteration was not lost and some cluster's listing was answered has no error.
   */
  lemma SomethingReadNoError(trace: Trace, api: Api, times: nat -> ReadTimes, log: seq<bool>, read: nat, listed: nat)
    requires WalkedFrom(trace, api, times, log)
    requires read < |trace.steps| && !Lost(trace.steps[read], trace.inputs.natives)
    requires listed < |trace.steps| && api.children(trace.steps[listed].call, trace.clusters[listed].id).Body?
    ensures Verdict(trace, log) == None
  {
    hide Lost, Walk, OutcomesOf, Verdict;
    StepInLog(trace, api, times, log, listed);
    assert log[trace.steps[listed].call];
    ErrorExactly(trace, api, times, log);
  }

  /** A cycle over no clusters makes no later request and has no error. */
  lemma NoClustersNoError(trace: Trace, api: Api, times: nat -> ReadTimes, log: seq<bool>)
    requires WalkedFrom(trace, api, times, log) && trace.clusters == []
    ensures |log| == trace.inventoryCalls && Verdict(trace, log) == None
  {
    hide Walk, OutcomesOf, Verdict;
    NoStepsNoCalls(trace, api, times, log);
    ErrorExactly(trace, api, times, log);
  }

  // ----- a healthy or honest server -----

  /** The iteration gathered what the world holds of its cluster. */
  ghost predicate StepRead(world: World, times: nat -> ReadTimes, cluster: Resource, step: Step) {
    && step.gathered.shell.Value?
    && step.gathered.shell.value.(vmsNotPoweredOn := 0) == ShellOf(world, cluster.id)
    && step.gathered.run == ReadsOf(world, cluster.id, times(step.call))
  }

  /** It then read the snapshot the world stands for, judged against the newest sample known before it. */
  lemma ReadIsSnapshot(world: World, times: nat -> ReadTimes, cluster: Resource, step: Step)
    requires StepRead(world, times, cluster, step)
    ensures step.Snap().Value?
    ensures step.Snap().value.(vmsNotPoweredOn := 0) == SnapshotOf(world, cluster.id, step.before, times(step.call))
    ensures step.After() == NewestAfter(world, cluster.id, step.before, times(step.call))
  {
    hide ShellOf, ReadsOf, JoinAll, Kept, Reference;
  }

  /** An iteration none of whose requests failed gathered its cluster, whatever happened to the others. */
  lemma HealthyStep(trace: Trace, api: Api, times: nat -> ReadTimes, log: seq<bool>, world: World, i: nat)
    requires WalkedFrom(trace, api, times, log) && i < |trace.steps|
    requires Healthy(api, world, trace.steps[i].call, trace.steps[i].End())
    ensures StepRead(world, times, trace.clusters[i], trace.steps[i])
  {
    hide Healthy, Gather, ShellOf, ReadsOf, Walk, OutcomesOf;
    StepInLog(trace, api, times, log, i);
    HealthyCluster(api, world, trace.clusters[i].id, trace.steps[i].call, times(trace.steps[i].call));
  }

  /** Whatever failed, what an iteration read of an honest server is the server's. */
  lemma HonestStep(trace: Trace, api: Api, times: nat -> ReadTimes, log: seq<bool>, world: World, i: nat)
    requires WalkedFrom(trace, api, times, log) && i < |trace.steps| && trace.steps[i].Snap().Value? && Honest(api, world)
    ensures Truthful(trace.steps[i].Snap().value, world, trace.clusters[i].id) && OnlyPoweredOn(trace.steps[i].Snap().value)
  {
    hide Honest, Gather, Walk, OutcomesOf, JoinAll, Kept, Truthful;
    StepInLog(trace, api, times, log, i);
    HonestCluster(api, world, trace.clusters[i].id, trace.steps[i].call, times(trace.steps[i].call), trace.steps[i].before);
  }

  /**
   A cycle none of whose requests failed after the inventory has no error exactly when it found no
   cluster or some iteration was not interrupted by a lookup.
   */
  lemma HealthyCycleNoError(trace: Trace, api: Api, times: nat -> ReadTimes, log: seq<bool>, world: World)
    requires WalkedFrom(trace, api, times, log) && Healthy(api, world, trace.inventoryCalls, |log|)
    ensures forall i :: 0 <= i < |trace.steps| ==> StepRead(world, times, trace.clusters[i], trace.steps[i])
    ensures forall i :: 0 <= i < |trace.steps| ==> trace.steps[i].Snap().Value?
    ensures Verdict(trace, log) == None <==>
      || trace.clusters == []
      || exists i :: 0 <= i < |trace.steps| && !Interrupted(trace.steps[i].Snap().value, trace.inputs.natives)
  {
    hide Healthy, Verdict, Interrupted, StepRead, Step.Snap, Walk, OutcomesOf;
    forall i | 0 <= i < |trace.steps|
      ensures StepRead(world, times, trace.clusters[i], trace.steps[i]) && trace.steps[i].Snap().Value?
    {
      StepInLog(trace, api, times, log, i);
      HealthyPart(api, world, trace.inventoryCalls, |log|, trace.steps[i].call, trace.steps[i].End());
      HealthyStep(trace, api, times, log, world, i);
      ReadIsSnapshot(world, times, trace.clusters[i], trace.steps[i]);
    }
    ErrorExactly(trace, api, times, log);
    if trace.clusters != [] {
      StepInLog(trace, api, times, log, 0);
      var first := trace.steps[0];
      HealthyPart(api, world, trace.inventoryCalls, |log|, first.call, first.End());
      HealthyListing(api, world, first.call, first.End(), trace.clusters[0].id);
      assert log[first.call];
    }
  }

  // ----- publications that say nothing -----

  /** A publication that says nothing: the score 0 is its only metric, and its band is unknown. */
  ghost predicate SaysNothing(p: Publication) {
    p.metrics == [(COMPOSITE_SCORE_ATTR, 0.0)] && (COMPOSITE_BAND_ATTR, "unknown") in p.properties
  }

  /** One of these publications holds a known value. */
  ghost predicate SaySomething(published: seq<Publication>) {
    exists p :: p in published && !SaysNothing(p)
  }

  /** Without a stat every value of a host, and of a cluster, is no data. */
  lemma NoStatNoValue(snap: Snapshot, monster: MonsterVmSettings, parse: string -> Option<real>)
    requires snap.stats == map[]
    ensures forall k :: k in ClusterValues(snap, monster, parse) ==> ClusterValues(snap, monster, parse)[k].None?
    ensures forall hostId, k :: k in HostMetrics(snap, monster, hostId) ==> HostMetrics(snap, monster, hostId)[k].None?
  {
    hide ClusterValues, ClusterMetric, ClusterOnlyMetric, HostMetric, SHARED_KEYS, CLUSTER_ONLY_KEYS, HOST_KEYS, CLUSTER_KEYS;
    KeyedValues(snap, monster, parse);
    OwnKeys();
    forall hostId, k | k in HOST_KEYS ensures HostMetric(snap, monster, hostId, k).None? {
      NoStatNoHostMetric(snap, monster, hostId, k);
    }
    forall k | k in SHARED_KEYS ensures ClusterMetric(snap, monster, k).None? {
      NoStatNoClusterMetric(snap, monster, k);
    }
    forall k | k in CLUSTER_ONLY_KEYS ensures ClusterOnlyMetric(snap, parse, k).None? {
      NoStatNoOwnMetric(snap, parse, k);
    }
  }

  lemma NoStatNoHostMetric(snap: Snapshot, monster: MonsterVmSettings, hostId: Id, k: MetricKey)
    requires snap.stats == map[] && k in HOST_KEYS
    ensures HostMetric(snap, monster, hostId, k).None?
  {
    hide VmSamples, VmStatkey, HostStatkey, HOST_KEYS, HyperThreaded;
    assert forall s: HostStat :: snap.Host(hostId, s).None?;
    if IsVmPair(k) {
      UnknownVmsNoSamples(snap, snap.Vms(hostId), Level(k.bucket));
    }
  }

  lemma NoStatNoClusterMetric(snap: Snapshot, monster: MonsterVmSettings, k: MetricKey)
    requires snap.stats == map[] && k in SHARED_KEYS
    ensures ClusterMetric(snap, monster, k).None?
  {
    hide HostMetric, VmSamples, VmStatkey, SHARED_KEYS, Known;
    if IsVmPair(k) {
      var parts := HostParts(snap, snap.hosts, k.bucket);
      forall i | 0 <= i < |parts| ensures parts[i] == [] {
        UnknownVmsNoSamples(snap, snap.Vms(snap.hosts[i].id), Level(k.bucket));
      }
      NothingPooled(parts);
    } else {
      forall i | 0 <= i < |snap.hosts| ensures HostMetric(snap, monster, snap.hosts[i].id, k).None? {
        NoStatNoHostMetric(snap, monster, snap.hosts[i].id, k);
      }
      NoneKnown(Column(snap, monster, snap.hosts, k));
    }
  }

  lemma {:induction false} NothingPooled(parts: seq<seq<real>>)
    requires forall i :: 0 <= i < |parts| ==> parts[i] == []
    ensures Pool(parts) == []
  {
    if parts != [] {
      NothingPooled(parts[..|parts| - 1]);
    }
  }

  lemma NoStatNoOwnMetric(snap: Snapshot, parse: string -> Option<real>, k: MetricKey)
    requires snap.stats == map[] && k in CLUSTER_ONLY_KEYS
    ensures ClusterOnlyMetric(snap, parse, k).None?
  {
    hide ClusterStatkey, HostStatkey, CLUSTER_ONLY_KEYS, Known, LinkMbps;
    assert forall c: ClusterStat :: snap.Cluster(c).None?;
    assert forall id, h: HostStat :: snap.Host(id, h).None?;
    NoneKnown(HostStats(snap, CpuUtilization));
    NoneKnown(HostStats(snap, CommandsAveraged));
    NoneKnown(Ballooned(snap, snap.hosts));
    NoneKnown(Throughputs(snap, snap.hosts, parse));
  }

  lemma {:induction false} NoRowMetrics(mapping: seq<Row<MetricKey>>, values: map<MetricKey, Option<real>>)
    requires !KnownRow(values, mapping)
    ensures RowMetrics(mapping, values) == []
  {
    hide Row.MetricAttr;
    if mapping != [] {
      NoRowMetrics(mapping[..|mapping| - 1], values);
    }
  }

  /** Some row of the table has a known value. */
  ghost predicate KnownRow(values: map<MetricKey, Option<real>>, mapping: seq<Row<MetricKey>>) {
    exists i :: 0 <= i < |mapping| && mapping[i].key in values && values[mapping[i].key].Some?
  }

  /** A dictionary's publication says something exactly when its object is found and some projected value is known. */
  lemma SaysSomething(key: Option<ResourceKey>, lookup: ResourceKey -> Lookup, values: map<MetricKey, Option<real>>,
                      scope: Scope<MetricKey>, mapping: seq<Row<MetricKey>>)
    requires AllProjected(scope, mapping)
    ensures SaySomething(Published(key, lookup, values, scope, mapping))
      <==> Usable(key, lookup) && KnownRow(values, mapping)
  {
    hide Metrics, Properties, AllProjected, SaysNothing, KnownRow, ScoredOf;
    if Usable(key, lookup) {
      var scored := ScoredOf(values, scope);
      var p := Publication(key.value, Metrics(mapping, values, scored), Properties(mapping, values, scored));
      assert Published(key, lookup, values, scope, mapping) == [p];
      if KnownRow(values, mapping) {
        KnownIsSaid(p, values, scope, mapping);
      } else {
        UnknownIsNotSaid(p, values, scope, mapping);
      }
    }
  }

  lemma KnownIsSaid(p: Publication, values: map<MetricKey, Option<real>>, scope: Scope<MetricKey>, mapping: seq<Row<MetricKey>>)
    requires KnownRow(values, mapping) && p.metrics == Metrics(mapping, values, ScoredOf(values, scope))
    ensures !SaysNothing(p)
  {
    hide RowMetrics, CompositeExtras, RowBands, ScoredOf, Row.MetricAttr, Row.BandAttr, BandOf;
    var i :| 0 <= i < |mapping| && mapping[i].key in values && values[mapping[i].key].Some?;
    RowWrites(mapping, values, map[], i);
    assert |RowMetrics(mapping, values)| > 0;
  }

  lemma UnknownIsNotSaid(p: Publication, values: map<MetricKey, Option<real>>, scope: Scope<MetricKey>, mapping: seq<Row<MetricKey>>)
    requires !KnownRow(values, mapping) && AllProjected(scope, mapping)
    requires p.metrics == Metrics(mapping, values, ScoredOf(values, scope))
    requires p.properties == Properties(mapping, values, ScoredOf(values, scope))
    ensures SaysNothing(p)
  {
    hide RowMetrics, RowBands, COMPOSITE_BAND_ATTR, COMPOSITE_SCORE_ATTR;
    NoRowMetrics(mapping, values);
    assert KnownBands(values, scope) == {};
    assert CompositeExtras(ScoredOf(values, scope)) == [];
    ScoreThenExtras(mapping, values, ScoredOf(values, scope));
  }

  /**
   What of a snapshot is published holds a known value: its cluster's object is found and one of the cluster's values is
   known, or so for one of the hosts that are reached before a lookup raises.
   */
  ghost predicate PublishesKnown(snap: Snapshot, inputs: Inputs) {
    || (Usable(KeyOf(inputs.natives.clusterKeys, snap.clusterId), inputs.natives.lookup)
        && KnownRow(ClusterValues(snap, inputs.monster, inputs.parse), CLUSTER_PROJECTION))
    || exists j :: 0 <= j < ProjectedHosts(snap, inputs.natives) && HostPublishesKnown(snap, inputs, j)
  }

  ghost predicate HostPublishesKnown(snap: Snapshot, inputs: Inputs, j: nat)
    requires j < |snap.hosts|
  {
    && Usable(KeyOf(inputs.natives.hostKeys, snap.hosts[j].id), inputs.natives.lookup)
    && KnownRow(HostMetrics(snap, inputs.monster, snap.hosts[j].id), HOST_PROJECTION)
  }

  lemma {:induction false} HostsSaySomething(snap: Snapshot, inputs: Inputs, n: nat)
    requires n <= |snap.hosts|
    ensures SaySomething(HostPublications(snap, inputs.monster, inputs.natives, n))
      <==> exists j :: 0 <= j < n && HostPublishesKnown(snap, inputs, j)
  {
    hide HostPublication, HostPublishesKnown, SaysNothing;
    if n > 0 {
      HostsSaySomething(snap, inputs, n - 1);
      HostSaysSomething(snap, inputs, n - 1);
      var before := HostPublications(snap, inputs.monster, inputs.natives, n - 1);
      var own := HostPublication(snap, inputs.monster, inputs.natives, snap.hosts[n - 1].id);
      assert forall p :: p in HostPublications(snap, inputs.monster, inputs.natives, n) <==> p in before || p in own;
    }
  }

  lemma HostSaysSomething(snap: Snapshot, inputs: Inputs, j: nat)
    requires j < |snap.hosts|
    ensures SaySomething(HostPublication(snap, inputs.monster, inputs.natives, snap.hosts[j].id))
      <==> HostPublishesKnown(snap, inputs, j)
  {
    hide HostMetrics, Published, KeyOf, Usable, KnownRow, SaysNothing, AllProjected, HOST_SCOPE, HOST_PROJECTION;
    ShippedAllProjected();
    SaysSomething(KeyOf(inputs.natives.hostKeys, snap.hosts[j].id), inputs.natives.lookup,
                  HostMetrics(snap, inputs.monster, snap.hosts[j].id), HOST_SCOPE, HOST_PROJECTION);
  }

  lemma ClusterSaysSomething(snap: Snapshot, inputs: Inputs)
    ensures SaySomething(ClusterPublications(snap, inputs.monster, inputs.parse, inputs.natives))
      <==> PublishesKnown(snap, inputs)
  {
    hide ClusterValues, Published, KeyOf, Usable, KnownRow, SaysNothing, AllProjected, HostPublications, HostPublishesKnown,
         ProjectedHosts, CLUSTER_SCOPE, CLUSTER_PROJECTION;
    ShippedAllProjected();
    SaysSomething(KeyOf(inputs.natives.clusterKeys, snap.clusterId), inputs.natives.lookup,
                  ClusterValues(snap, inputs.monster, inputs.parse), CLUSTER_SCOPE, CLUSTER_PROJECTION);
    HostsSaySomething(snap, inputs, ProjectedHosts(snap, inputs.natives));
    var own := ClusterPublication(snap, inputs.monster, inputs.parse, inputs.natives);
    var hosts := HostPublications(snap, inputs.monster, inputs.natives, ProjectedHosts(snap, inputs.natives));
    assert forall p :: p in own + hosts <==> p in own || p in hosts;
  }

  /** A cluster of which no stat was read publishes no known value, whatever was listed and whatever properties were read. */
  lemma NoStatSaysNothing(snap: Snapshot, inputs: Inputs)
    requires snap.stats == map[]
    ensures !SaySomething(ClusterPublications(snap, inputs.monster, inputs.parse, inputs.natives))
  {
    hide ClusterValues, HostMetrics, ClusterPublications, KeyOf, Usable, SaysNothing, ProjectedHosts, CLUSTER_PROJECTION, HOST_PROJECTION;
    NoStatNoValue(snap, inputs.monster, inputs.parse);
    ClusterSaysSomething(snap, inputs);
  }

  lemma {:induction false} PublishedBySome(steps: seq<Step>, inputs: Inputs, p: Publication)
    requires p in PublishedBy(steps, inputs)
    ensures exists i :: 0 <= i < |steps| && p in PublishedByOne(steps[i], inputs)
  {
    hide PublishedByOne;
    var n := |steps| - 1;
    if p in PublishedBy(steps[..n], inputs) {
      PublishedBySome(steps[..n], inputs, p);
      var i :| 0 <= i < n && p in PublishedByOne(steps[..n][i], inputs);
      assert steps[..n][i] == steps[i];
    }
  }

  // ----- the missed alarm -----

  /** None of an iteration's stats requests succeeded. */
  ghost predicate StatsFailed(step: Step) {
    step.gathered.before <= |step.gathered.outcomes| && NoneSucceeded(step.gathered.outcomes[step.gathered.before..])
  }

  lemma NoStatOf(api: Api, clusterId: Id, times: nat -> ReadTimes, step: Step)
    requires step.gathered == Gather(api, clusterId, step.call, times(step.call)) && StatsFailed(step)
    ensures step.Snap().Value? ==> step.Snap().value.stats == map[]
  {
    hide Gather, JoinAll, NoneSucceeded;
    NoStatsNoStat(api, clusterId, step.call, times(step.call), step.before);
    NoTableYet(api, clusterId, step.call, times(step.call));
  }

  lemma NotAmongStats(step: Step, log: seq<bool>, n: nat)
    requires StatsFailed(step) && step.call <= n < step.End() <= |log| && log[n]
    requires log[step.call..step.End()] == step.gathered.outcomes
    ensures n < step.StatsFrom()
  {
    var outcomes, before := step.gathered.outcomes, step.gathered.before;
    forall k | before <= k < |outcomes| ensures !outcomes[k] {
      assert outcomes[before..][k - before] == outcomes[k];
    }
    assert log[n] == outcomes[n - step.call];
  }

  /**
   The missed alarm. The repository's README.md:45-48 promises an error when every stats call failed.
   When every stats call failed no stat was read at all, and nothing that is published holds a known value; yet
   there is no error exactly when some iteration was not lost and some listing or properties call succeeded.
   */
  lemma EveryStatsCallFailed(trace: Trace, api: Api, times: nat -> ReadTimes, log: seq<bool>)
    requires WalkedFrom(trace, api, times, log) && trace.clusters != []
    requires forall i :: 0 <= i < |trace.steps| ==> StatsFailed(trace.steps[i])
    ensures forall i :: 0 <= i < |trace.steps| && trace.steps[i].Snap().Value? ==> trace.steps[i].Snap().value.stats == map[]
    ensures !SaySomething(PublishedBy(trace.steps, trace.inputs))
    ensures Verdict(trace, log) == None <==>
      && (exists i :: 0 <= i < |trace.steps| && !Lost(trace.steps[i], trace.inputs.natives))
      && (exists i, n :: 0 <= i < |trace.steps| && trace.steps[i].call <= n < trace.steps[i].StatsFrom() && n < |log| && log[n])
  {
    hide Lost, Verdict, Walk, OutcomesOf, Step.Snap, StatsFailed, PublishedBy, SaysNothing, ClusterPublications;
    var steps := trace.steps;
    forall i | 0 <= i < |steps| && steps[i].Snap().Value? ensures steps[i].Snap().value.stats == map[] {
      StepInLog(trace, api, times, log, i);
      NoStatOf(api, trace.clusters[i].id, times, steps[i]);
    }
    forall p | p in PublishedBy(steps, trace.inputs) ensures SaysNothing(p) {
      PublishedBySome(steps, trace.inputs, p);
      var i :| 0 <= i < |steps| && p in PublishedByOne(steps[i], trace.inputs);
      NoStatSaysNothing(steps[i].Snap().value, trace.inputs);
    }
    ErrorExactly(trace, api, times, log);
    forall n: nat | trace.inventoryCalls <= n < |log| && log[n]
      ensures exists i :: 0 <= i < |steps| && steps[i].call <= n < steps[i].StatsFrom()
    {
      StepOfCall(trace, api, times, log, n);
      var i :| 0 <= i < |steps| && steps[i].call <= n < steps[i].End();
      StepInLog(trace, api, times, log, i);
      NotAmongStats(steps[i], log, n);
    }
    forall i | 0 <= i < |steps| ensures trace.inventoryCalls <= steps[i].call {
      StepInLog(trace, api, times, log, i);
    }
  }

  /** When every later request failed no iteration read a stat. */
  lemma AllFailedNoStat(trace: Trace, api: Api, times: nat -> ReadTimes, log: seq<bool>, i: nat)
    requires WalkedFrom(trace, api, times, log) && AllFailedSince(log, trace.inventoryCalls) && i < |trace.steps|
    ensures trace.steps[i].Snap().Value? ==> trace.steps[i].Snap().value.stats == map[]
  {
    hide Walk, OutcomesOf, Gather, Step.Snap;
    var step := trace.steps[i];
    StepInLog(trace, api, times, log, i);
    forall n | 0 <= n < |step.gathered.outcomes| ensures !step.gathered.outcomes[n] {
      assert log[step.call..step.End()][n] == log[step.call + n];
    }
    NoStatOf(api, trace.clusters[i].id, times, step);
  }

  // ----- what an error loses -----

  /**
   What an error hides. The platform drops every object of a result that carries an error. Whatever error a cycle that
   read its inventory ends with, a known value is lost with it exactly when some iteration had published one before
   a lookup interrupted it. Without such a lookup an error loses nothing.
   */
  lemma ErrorLosesNothing(trace: Trace, api: Api, times: nat -> ReadTimes, log: seq<bool>)
    requires WalkedFrom(trace, api, times, log) && Verdict(trace, log).Some?
    ensures SaySomething(PublishedBy(trace.steps, trace.inputs))
      <==> exists i ::
        && 0 <= i < |trace.steps| && trace.steps[i].Snap().Value?
        && Interrupted(trace.steps[i].Snap().value, trace.inputs.natives)
        && PublishesKnown(trace.steps[i].Snap().value, trace.inputs)
  {
    hide PublishedBy, SaysNothing, Interrupted, PublishesKnown, ClusterPublications, Walk, OutcomesOf, Step.Snap;
    forall p | p in PublishedBy(trace.steps, trace.inputs) && !SaysNothing(p)
      ensures exists i ::
        && 0 <= i < |trace.steps| && trace.steps[i].Snap().Value?
        && Interrupted(trace.steps[i].Snap().value, trace.inputs.natives)
        && PublishesKnown(trace.steps[i].Snap().value, trace.inputs)
    {
      PublishedBySome(trace.steps, trace.inputs, p);
      var i :| 0 <= i < |trace.steps| && p in PublishedByOne(trace.steps[i], trace.inputs);
      ClusterSaysSomething(trace.steps[i].Snap().value, trace.inputs);
      if AllFailedSince(log, trace.inventoryCalls) {
        AllFailedNoStat(trace, api, times, log, i);
        NoStatSaysNothing(trace.steps[i].Snap().value, trace.inputs);
      } else {
        assert Lost(trace.steps[i], trace.inputs.natives);
      }
    }
    forall i | 0 <= i < |trace.steps| && trace.steps[i].Snap().Value? && PublishesKnown(trace.steps[i].Snap().value, trace.inputs)
      ensures SaySomething(PublishedBy(trace.steps, trace.inputs))
    {
      ClusterSaysSomething(trace.steps[i].Snap().value, trace.inputs);
      var own := ClusterPublications(trace.steps[i].Snap().value, trace.inputs.monster, trace.inputs.parse, trace.inputs.natives);
      var p :| p in own && !SaysNothing(p);
      OneBlock(trace.steps, trace.inputs, i);
      var before, after :| PublishedBy(trace.steps, trace.inputs) == before + own + after;
    }
  }

  // ----- every cluster that was read -----

  /** The iterations that read a snapshot. */
  ghost function ReadSteps(steps: seq<Step>): seq<Step> {
    if steps == [] then []
    else
      var n := |steps| - 1;
      ReadSteps(steps[..n]) + if steps[n].Snap().Value? then [steps[n]] else []
  }

  /**
   Everything a cluster that was not lost has to publish, its own values and those of all its hosts,
   is published, in one block.
   */
  lemma ReadClusterIsWhole(steps: seq<Step>, inputs: Inputs, i: nat)
    requires i < |steps| && !Lost(steps[i], inputs.natives)
    ensures var snap := steps[i].Snap().value;
      var own := ClusterPublication(snap, inputs.monster, inputs.parse, inputs.natives);
      var hosts := HostPublications(snap, inputs.monster, inputs.natives, |snap.hosts|);
      exists before, after :: PublishedBy(steps, inputs) == before + (own + hosts) + after
  {
    hide ClusterPublication, HostPublications, PublishedBy, Raising, KeyOf;
    OneBlock(steps, inputs, i);
    var snap := steps[i].Snap().value;
    assert ProjectedHosts(snap, inputs.natives) == |snap.hosts|;
    var whole := ClusterPublications(snap, inputs.monster, inputs.parse, inputs.natives);
    var before, after :| PublishedBy(steps, inputs) == before + whole + after;
    assert whole == ClusterPublication(snap, inputs.monster, inputs.parse, inputs.natives)
                    + HostPublications(snap, inputs.monster, inputs.natives, |snap.hosts|);
  }

  lemma {:induction false} OneBlock(steps: seq<Step>, inputs: Inputs, i: nat)
    requires i < |steps| && steps[i].Snap().Value?
    ensures var own := ClusterPublications(steps[i].Snap().value, inputs.monster, inputs.parse, inputs.natives);
      exists before, after :: PublishedBy(steps, inputs) == before + own + after
  {
    hide *;
    var n := |steps| - 1;
    var init, last := PublishedBy(steps[..n], inputs), PublishedByOne(steps[n], inputs);
    var own := ClusterPublications(steps[i].Snap().value, inputs.monster, inputs.parse, inputs.natives);
    LastPublished(steps, inputs);
    if i == n {
      Around([], own, [], init);
    } else {
      OneBlock(steps[..n], inputs, i);
      var before, after :| init == before + own + after;
      Around(before, own, after, last);
    }
  }

  lemma LastPublished(steps: seq<Step>, inputs: Inputs)
    requires steps != []
    ensures var n := |steps| - 1;
      && PublishedBy(steps, inputs) == PublishedBy(steps[..n], inputs) + PublishedByOne(steps[n], inputs)
      && (steps[n].Snap().Value? ==>
            PublishedByOne(steps[n], inputs) == ClusterPublications(steps[n].Snap().value, inputs.monster, inputs.parse, inputs.natives))
  {
    hide ClusterPublications, Step.Snap;
  }

  lemma Around(before: seq<Publication>, own: seq<Publication>, after: seq<Publication>, last: seq<Publication>)
    ensures (before + own + after) + last == before + own + (after + last)
    ensures last + own == last + own + []
  {
  }

  // ----- conservation -----

  lemma AtMostOne(key: Option<ResourceKey>, lookup: ResourceKey -> Lookup, values: map<MetricKey, Option<real>>,
                  scope: Scope<MetricKey>, mapping: seq<Row<MetricKey>>)
    ensures |Published(key, lookup, values, scope, mapping)| <= 1
  {
    hide Metrics, Properties, ScoredOf;
  }

  lemma {:induction false} HostPublicationsAtMost(snap: Snapshot, monster: MonsterVmSettings, natives: Natives, n: nat)
    requires n <= |snap.hosts|
    ensures |HostPublications(snap, monster, natives, n)| <= n
  {
    hide HostPublication;
    if n > 0 {
      HostPublicationsAtMost(snap, monster, natives, n - 1);
      HostAtMostOne(snap, monster, natives, snap.hosts[n - 1].id);
    }
  }

  lemma HostAtMostOne(snap: Snapshot, monster: MonsterVmSettings, natives: Natives, hostId: Id)
    ensures |HostPublication(snap, monster, natives, hostId)| <= 1
  {
    hide HostMetrics, Published, KeyOf, HOST_SCOPE, HOST_PROJECTION;
    AtMostOne(KeyOf(natives.hostKeys, hostId), natives.lookup, HostMetrics(snap, monster, hostId), HOST_SCOPE, HOST_PROJECTION);
  }

  /**
   The logged totals account for what was published: every publication is one projected cluster or
   host, the attributes are theirs, and no more was projected than was read.
   */
  lemma {:induction false} TotalsAddUp(steps: seq<Step>, inputs: Inputs)
    ensures var s, published := SummaryOf(steps, inputs), PublishedBy(steps, inputs);
      && s.clustersProjected + s.hostsProjected == |published|
      && s.attributes == AttributeCount(published)
      && s.hostsProjected <= s.totalHosts
      && s.clustersProjected <= |ReadSteps(steps)|
      && s.withHosts <= |ReadSteps(steps)|
  {
    hide ClusterPublication, HostPublications, AttributeCount;
    if steps == [] {
      NoAttributes();
    } else {
      var n := |steps| - 1;
      TotalsAddUp(steps[..n], inputs);
      if steps[n].Snap().Value? {
        var snap := steps[n].Snap().value;
        OneClusterAddsUp(snap, inputs);
        AttributeCountJoin(PublishedBy(steps[..n], inputs), ClusterPublications(snap, inputs.monster, inputs.parse, inputs.natives));
      } else {
        assert PublishedBy(steps, inputs) == PublishedBy(steps[..n], inputs);
      }
    }
  }

  lemma NoAttributes()
    ensures AttributeCount([]) == 0
  {
  }

  lemma OneClusterAddsUp(snap: Snapshot, inputs: Inputs)
    ensures var own := ClusterPublication(snap, inputs.monster, inputs.parse, inputs.natives);
      var hosts := HostPublications(snap, inputs.monster, inputs.natives, ProjectedHosts(snap, inputs.natives));
      && |own| <= 1 && |hosts| <= |snap.hosts|
      && AttributeCount(own + hosts) == AttributeCount(own) + AttributeCount(hosts)
  {
    hide HostPublications, Published, AttributeCount, ClusterValues, KeyOf, CLUSTER_SCOPE, CLUSTER_PROJECTION;
    var own := ClusterPublication(snap, inputs.monster, inputs.parse, inputs.natives);
    AtMostOne(KeyOf(inputs.natives.clusterKeys, snap.clusterId), inputs.natives.lookup,
              ClusterValues(snap, inputs.monster, inputs.parse), CLUSTER_SCOPE, CLUSTER_PROJECTION);
    HostPublicationsAtMost(snap, inputs.monster, inputs.natives, ProjectedHosts(snap, inputs.natives));
    AttributeCountJoin(own, HostPublications(snap, inputs.monster, inputs.natives, ProjectedHosts(snap, inputs.natives)));
  }

  // ----- powered-off VMs, over a whole cycle -----

  /** Snapshots with the same readings publish the same. */
  lemma SamePublications(a: Snapshot, b: Snapshot, inputs: Inputs)
    requires SameReadings(a, b)
    ensures |a.hosts| == |b.hosts| && ProjectedHosts(a, inputs.natives) == ProjectedHosts(b, inputs.natives)
    ensures ClusterPublication(a, inputs.monster, inputs.parse, inputs.natives)
            == ClusterPublication(b, inputs.monster, inputs.parse, inputs.natives)
    ensures HostPublications(a, inputs.monster, inputs.natives, ProjectedHosts(a, inputs.natives))
            == HostPublications(b, inputs.monster, inputs.natives, ProjectedHosts(b, inputs.natives))
  {
    hide Published, KeyOf, Raising, HostPublications, HostMetrics, ClusterMetrics, ClusterOnlyMetrics, CLUSTER_SCOPE, CLUSTER_PROJECTION;
    ReadingsDecide(a, b, inputs.monster, inputs.parse);
    assert ClusterValues(a, inputs.monster, inputs.parse) == ClusterValues(b, inputs.monster, inputs.parse);
    SameHostPublications(a, b, inputs.monster, inputs.natives, ProjectedHosts(a, inputs.natives));
  }

  lemma {:induction false} SameHostPublications(a: Snapshot, b: Snapshot, monster: MonsterVmSettings, natives: Natives, n: nat)
    requires a.hosts == b.hosts && n <= |a.hosts|
    requires forall i :: 0 <= i < |b.hosts| ==> HostMetrics(a, monster, b.hosts[i].id) == HostMetrics(b, monster, b.hosts[i].id)
    ensures HostPublications(a, monster, natives, n) == HostPublications(b, monster, natives, n)
  {
    hide HostPublication, HostMetrics;
    if n > 0 {
      SameHostPublications(a, b, monster, natives, n - 1);
      SameHostPublication(a, b, monster, natives, b.hosts[n - 1].id);
    }
  }

  lemma SameHostPublication(a: Snapshot, b: Snapshot, monster: MonsterVmSettings, natives: Natives, hostId: Id)
    requires HostMetrics(a, monster, hostId) == HostMetrics(b, monster, hostId)
    ensures HostPublication(a, monster, natives, hostId) == HostPublication(b, monster, natives, hostId)
  {
    hide Published, KeyOf, HostMetrics, HOST_SCOPE, HOST_PROJECTION;
  }

  lemma SameReadingsChain(a: Snapshot, c: Snapshot, d: Snapshot, b: Snapshot)
    requires a.(vmsNotPoweredOn := 0) == c && SameReadings(c, d) && b.(vmsNotPoweredOn := 0) == d
    ensures SameReadings(a, b)
  {
    hide Snapshot.Host, Snapshot.Vm, Snapshot.Cluster, Snapshot.Prop;
    CountNotRead(a, c);
    CountNotRead(b, d);
    forall i | 0 <= i < |a.hosts| ensures SameHostStats(a, b, a.hosts[i].id) && SameMemory(a, b, a.hosts[i].id) {
      assert SameHostStats(c, d, c.hosts[i].id) && SameMemory(c, d, c.hosts[i].id);
    }
    forall i, p | 0 <= i < |a.hosts| ensures a.Prop(a.hosts[i].id, p) == b.Prop(a.hosts[i].id, p) {
      assert c.Prop(c.hosts[i].id, p) == d.Prop(c.hosts[i].id, p);
    }
  }

  /** No reading sees how many VMs are off. */
  lemma CountNotRead(a: Snapshot, c: Snapshot)
    requires a.(vmsNotPoweredOn := 0) == c
    ensures forall id: Id, k: HostStat :: a.Host(id, k) == c.Host(id, k)
    ensures forall id: Id, k: VmStat :: a.Vm(id, k) == c.Vm(id, k)
    ensures forall k: ClusterStat :: a.Cluster(k) == c.Cluster(k)
    ensures forall id: Id, p: HostProp :: a.Prop(id, p) == c.Prop(id, p)
  {
    hide HostStatkey, VmStatkey, ClusterStatkey, HostPropertyKey;
  }

  /** Each iteration starts from the newest sample that the one before it left. */
  ghost predicate Chained(steps: seq<Step>, first: int) {
    forall i :: 0 <= i < |steps| ==> steps[i].before == NewestOf(steps[..i], first)
  }

  lemma WalkChains(api: Api, times: nat -> ReadTimes, clusters: seq<Resource>, from: nat, first: int, steps: seq<Step>)
    requires Walk(api, times, clusters, from, first, steps)
    ensures Chained(steps, first)
  {
    hide Gather, EndOf, NewestOf;
    forall i | 0 <= i < |steps| ensures steps[i].before == NewestOf(steps[..i], first) {
      assert StepAt(api, times, clusters, from, first, steps, i);
    }
  }

  lemma {:induction false} ChainInit(steps: seq<Step>, first: int)
    requires steps != [] && Chained(steps, first)
    ensures Chained(steps[..|steps| - 1], first) && steps[|steps| - 1].before == NewestOf(steps[..|steps| - 1], first)
  {
    hide NewestOf;
    var init := steps[..|steps| - 1];
    forall i | 0 <= i < |init| ensures init[i].before == NewestOf(init[..i], first) {
      assert init[..i] == steps[..i] && steps[i].before == NewestOf(steps[..i], first);
    }
  }

  /**
   Deleting every VM that is not on from the inventory changes nothing a cycle publishes, none of its
   totals, and not its newest sample, when the clock reads the same in both cycles.
   */
  lemma {:induction false} PoweredOffVmsPublishNothing(
      less: World, full: World, clusters: seq<Resource>, inputs: Inputs, first: int,
      a: seq<Step>, timesA: nat -> ReadTimes, b: seq<Step>, timesB: nat -> ReadTimes)
    requires WithoutPoweredOff(less, full)
    requires |a| == |b| <= |clusters| && forall i :: 0 <= i < |a| ==> timesA(a[i].call) == timesB(b[i].call)
    requires Chained(a, first) && forall i :: 0 <= i < |a| ==> StepRead(less, timesA, clusters[i], a[i])
    requires Chained(b, first) && forall i :: 0 <= i < |b| ==> StepRead(full, timesB, clusters[i], b[i])
    ensures NewestOf(a, first) == NewestOf(b, first)
    ensures PublishedBy(a, inputs) == PublishedBy(b, inputs)
    ensures SummaryOf(a, inputs) == SummaryOf(b, inputs)
  {
    hide WithoutPoweredOff, SnapshotOf, NewestAfter, SameReadings, PublishedByOne, SummaryAfter, StepRead, Chained, Step.Snap;
    if a != [] {
      var n := |a| - 1;
      ChainInit(a, first);
      ChainInit(b, first);
      assert forall i :: 0 <= i < n ==> a[..n][i] == a[i] && b[..n][i] == b[i];
      PoweredOffVmsPublishNothing(less, full, clusters, inputs, first, a[..n], timesA, b[..n], timesB);
      ReadIsSnapshot(less, timesA, clusters[n], a[n]);
      ReadIsSnapshot(full, timesB, clusters[n], b[n]);
      var id, newest, now := clusters[n].id, b[n].before, timesB(b[n].call);
      SnapshotsAgree(less, full, id, newest, now);
      SameReadingsChain(a[n].Snap().value, SnapshotOf(less, id, newest, now), SnapshotOf(full, id, newest, now), b[n].Snap().value);
      SameStep(a[n], b[n], SummaryOf(a[..n], inputs), inputs);
    }
  }

  /** Iterations that read the same publish and count the same. */
  lemma SameStep(a: Step, b: Step, s: Summary, inputs: Inputs)
    requires a.Snap().Value? && b.Snap().Value? && SameReadings(a.Snap().value, b.Snap().value)
    ensures PublishedByOne(a, inputs) == PublishedByOne(b, inputs)
    ensures SummaryAfter(s, a, inputs) == SummaryAfter(s, b, inputs)
  {
    hide SameReadings, ClusterPublication, HostPublications, AttributeCount, Step.Snap;
    SamePublications(a.Snap().value, b.Snap().value, inputs);
  }

  // ----- what an operator sees -----

  /**
   A host that is red on a rolled-up key shows: its cluster's object, when it can be identified,
   gets the composite band "red" and a score of at least 63.
   */
  lemma RedHostShowsOnCluster(snap: Snapshot, inputs: Inputs, i: nat, hostKey: MetricKey, clusterKey: MetricKey)
    requires RollsUp(hostKey, clusterKey) && i < |snap.hosts| && hostKey in HOST_KEYS
    requires HostBand(snap, inputs.monster, snap.hosts[i].id, hostKey) == Red
    requires Usable(KeyOf(inputs.natives.clusterKeys, snap.clusterId), inputs.natives.lookup)
    ensures var published := ClusterPublications(snap, inputs.monster, inputs.parse, inputs.natives);
      && published != [] && published[0].key == inputs.natives.clusterKeys[snap.clusterId]
      && (COMPOSITE_BAND_ATTR, "red") in published[0].properties
      && exists score :: score >= 63.0 && (COMPOSITE_SCORE_ATTR, score) in published[0].metrics
  {
    hide HostBand, HOST_KEYS, RollsUp, ClusterValues, CompositeBand, CompositeScore, Bands, Metrics, Properties, HostPublications,
         CLUSTER_SCOPE, CLUSTER_PROJECTION, COMPOSITE_BAND_ATTR, COMPOSITE_SCORE_ATTR;
    var values := ClusterValues(snap, inputs.monster, inputs.parse);
    HostNeverWorseThanCluster(snap, inputs.monster, inputs.parse, i, hostKey, clusterKey);
    ContentsAgree(CLUSTER_PROJECTION, values, ScoredOf(values, CLUSTER_SCOPE));
    assert CompositeScore(values, CLUSTER_SCOPE) >= 63.0;
  }

  // ----- no guesses -----

  /** The server lists a VM under the host, gives its power state as on, and holds this value for it. */
  ghost predicate SomeVmHolds(world: World, hostId: Id, k: VmStat, value: real) {
    exists v ::
      && v in VmsOf(world, hostId)
      && PropFrom(world, (v.id, VM_POWER_STATE_PROPERTY), VM_POWERED_ON)
      && StatFrom(world, (v.id, VmStatkey(k)), value)
  }

  /**
   A known worst-VM value is never a guess, whatever requests fail: it is what the server holds for
   some VM that it lists under that very host and gives as powered on.
   */
  lemma WorstIsARealVm(snap: Snapshot, world: World, clusterId: Id, monster: MonsterVmSettings, hostId: Id, b: Bucket)
    requires Truthful(snap, world, clusterId) && OnlyPoweredOn(snap)
    ensures WorstVm(b) in HOST_KEYS
    ensures var worst := HostMetric(snap, monster, hostId, WorstVm(b));
      worst.Some? ==> SomeVmHolds(world, hostId, Level(b), worst.value)
  {
    hide HostMetric, Truthful, OnlyPoweredOn, SomeVmHolds, VmStatkey, HOST_KEYS, Known, Snapshot.Vm;
    PairMetrics(snap, monster, hostId, b);
    var vms := snap.Vms(hostId);
    var worst := HostMetric(snap, monster, hostId, WorstVm(b));
    if worst.Some? {
      KnownMembers(VmStats(snap, vms, Level(b)), worst.value);
      var i :| 0 <= i < |vms| && VmStats(snap, vms, Level(b))[i] == worst;
      ReadOfRealVm(snap, world, clusterId, hostId, vms[i], Level(b));
    }
  }

  lemma ReadOfRealVm(snap: Snapshot, world: World, clusterId: Id, hostId: Id, v: Resource, k: VmStat)
    requires Truthful(snap, world, clusterId) && OnlyPoweredOn(snap)
    requires v in snap.Vms(hostId) && snap.Vm(v.id, k).Some?
    ensures SomeVmHolds(world, hostId, k, snap.Vm(v.id, k).value)
  {
    hide StatFrom, PropFrom, VmStatkey, VmsOf, HostsOf, IdsOf;
    assert IsOn(v.id, snap.props);
    assert snap.stats[(v.id, VmStatkey(k))] == snap.Vm(v.id, k).value;
  }
}
