/** From one walk to the bands of the cluster and of its hosts: the two sides agree. */
module Pipeline {
  import opened Common
  import opened Constants
  import opened Samples
  import opened Scoring
  import opened ScoringTheorems
  import opened Thresholds
  import opened Traversal
  import opened TraversalTheorems
  import opened Cluster

  /** The dictionary a cluster is scored on: its own metrics, updated with the walk's. */
  function ClusterValues(snap: Snapshot, monster: MonsterVmSettings, parse: string -> Option<real>): map<MetricKey, Option<real>> {
    ClusterOnlyMetrics(snap, parse) + ClusterMetrics(snap, monster)
  }

  /** The host key a cluster key is the maximum of. */
  predicate RollsUp(hostKey: MetricKey, clusterKey: MetricKey) {
    || (MaxRolled(hostKey) && clusterKey == hostKey)
    || (hostKey == HostCpuThreadUtilization && clusterKey == CpuThreadUtilization)
    || (hostKey == HostMemoryBallooned && clusterKey == MemoryBallooned)
  }

  /** Both object types draw the same lines for a rolled-up key, and the lines are in order. */
  lemma SameLines(hostKey: MetricKey, clusterKey: MetricKey)
    requires RollsUp(hostKey, clusterKey)
    ensures hostKey in HOST_KEYS && hostKey in HOST_SCOPE.bounds
    ensures clusterKey in CLUSTER_KEYS && clusterKey in CLUSTER_SCOPE.bounds
    ensures CLUSTER_SCOPE.bounds[clusterKey] == HOST_SCOPE.bounds[hostKey]
    ensures Ordered(HOST_SCOPE.bounds[hostKey])
  {
    hide BoundsOf;
    VmPairKeys();
    OrderedBounds(hostKey);
    CrossLines();
  }

  lemma CrossLines()
    ensures BoundsOf(CpuThreadUtilization) == BoundsOf(HostCpuThreadUtilization)
    ensures BoundsOf(MemoryBallooned) == BoundsOf(HostMemoryBallooned)
  {
  }

  lemma SameP90Lines(b: Bucket)
    ensures P90Vm(b) in HOST_KEYS && P90Vm(b) in CLUSTER_KEYS
    ensures P90Vm(b) in HOST_SCOPE.bounds && P90Vm(b) in CLUSTER_SCOPE.bounds
    ensures CLUSTER_SCOPE.bounds[P90Vm(b)] == HOST_SCOPE.bounds[P90Vm(b)]
    ensures Ordered(HOST_SCOPE.bounds[P90Vm(b)])
  {
    hide BoundsOf;
    VmPairKeys();
    OrderedBounds(P90Vm(b));
  }

  // ----- values roll up, so bands do -----

  /** The value of a host, and its band in the host's own scope. */
  function HostBand(snap: Snapshot, monster: MonsterVmSettings, hostId: Id, k: MetricKey): Band
    requires k in HOST_KEYS
  {
    ClassifyBand(HostMetric(snap, monster, hostId, k), k, HOST_SCOPE.bounds)
  }

  /** The band of a key of the cluster, in the cluster's own scope. */
  function ClusterBand(snap: Snapshot, monster: MonsterVmSettings, parse: string -> Option<real>, k: MetricKey): Band
    requires k in CLUSTER_KEYS
  {
    KeyedValues(snap, monster, parse);
    ClassifyBand(ClusterValues(snap, monster, parse)[k], k, CLUSTER_SCOPE.bounds)
  }

  lemma KeyedValues(snap: Snapshot, monster: MonsterVmSettings, parse: string -> Option<real>)
    ensures ClusterValues(snap, monster, parse).Keys == CLUSTER_KEYS
    ensures forall k :: k in SHARED_KEYS ==> ClusterValues(snap, monster, parse)[k] == ClusterMetric(snap, monster, k)
    ensures forall k :: k in CLUSTER_ONLY_KEYS ==> ClusterValues(snap, monster, parse)[k] == ClusterOnlyMetric(snap, parse, k)
  {
    hide ClusterMetric, ClusterOnlyMetric, SHARED_KEYS, CLUSTER_ONLY_KEYS, CLUSTER_KEYS;
    OwnKeys();
    UpdatedKeys(ClusterOnlyMetrics(snap, parse), ClusterMetrics(snap, monster), CLUSTER_ONLY_KEYS, SHARED_KEYS);
  }

  lemma OwnKeys()
    ensures CLUSTER_ONLY_KEYS !! SHARED_KEYS && CLUSTER_KEYS == SHARED_KEYS + CLUSTER_ONLY_KEYS
  {
    hide HOST_ROLLED_KEYS, VM_PAIR_KEYS;
    VmPairKeys();
    assert forall k :: k in CLUSTER_ONLY_KEYS ==> !IsVmPair(k);
    assert forall k :: k in CLUSTER_ONLY_KEYS ==> k !in HOST_ROLLED_KEYS by {
      NotRolled();
    }
  }

  lemma NotRolled()
    ensures CLUSTER_ONLY_KEYS !! HOST_ROLLED_KEYS
  {
  }

  /** A dictionary updated with another one that has different keys. */
  lemma UpdatedKeys(own: map<MetricKey, Option<real>>, update: map<MetricKey, Option<real>>, ownKeys: set<MetricKey>, updateKeys: set<MetricKey>)
    requires own.Keys == ownKeys && update.Keys == updateKeys && ownKeys !! updateKeys
    ensures (own + update).Keys == updateKeys + ownKeys
    ensures forall k :: k in updateKeys ==> (own + update)[k] == update[k]
    ensures forall k :: k in ownKeys ==> (own + update)[k] == own[k]
  {
  }

  /** `worst` is the worst known band of a list: unknown exactly when all are, else one of them and none is worse. */
  ghost predicate IsWorstBand(worst: Band, bands: seq<Band>) {
    && (worst == Unknown <==> forall i :: 0 <= i < |bands| ==> bands[i] == Unknown)
    && (worst != Unknown ==> worst in bands)
    && (forall i :: 0 <= i < |bands| ==> BandFloor(bands[i]) <= BandFloor(worst))
  }

  function BandColumn(snap: Snapshot, monster: MonsterVmSettings, k: MetricKey): (bands: seq<Band>)
    requires k in HOST_KEYS
    ensures |bands| == |snap.hosts|
    ensures forall i :: 0 <= i < |bands| ==> bands[i] == HostBand(snap, monster, snap.hosts[i].id, k)
  {
    seq(|snap.hosts|, i requires 0 <= i < |snap.hosts| => HostBand(snap, monster, snap.hosts[i].id, k))
  }

  lemma RolledKeys(hostKey: MetricKey, clusterKey: MetricKey)
    requires RollsUp(hostKey, clusterKey)
    ensures hostKey in HOST_KEYS && clusterKey in CLUSTER_KEYS
    ensures if MaxRolled(hostKey) then clusterKey in SHARED_KEYS else clusterKey in CLUSTER_ONLY_KEYS
  {
    hide VM_PAIR_KEYS;
    VmPairKeys();
  }

  lemma RolledValue(snap: Snapshot, monster: MonsterVmSettings, parse: string -> Option<real>, hostKey: MetricKey, clusterKey: MetricKey)
    requires RollsUp(hostKey, clusterKey)
    ensures hostKey in HOST_KEYS && clusterKey in ClusterValues(snap, monster, parse)
    ensures IsWorst(ClusterValues(snap, monster, parse)[clusterKey], Column(snap, monster, snap.hosts, hostKey))
  {
    hide HostMetric, ClusterMetric, ClusterOnlyMetric, IsWorst, ClusterValues, SHARED_KEYS, CLUSTER_ONLY_KEYS;
    KeyedValues(snap, monster, parse);
    RolledKeys(hostKey, clusterKey);
    if MaxRolled(hostKey) {
      ClusterIsWorstHost(snap, monster, hostKey);
    } else {
      ThreadUtilizationAgrees(snap, parse, monster);
      BallooningAgrees(snap, parse, monster);
    }
  }

  /** The band of a largest value is the worst band of the values. */
  lemma WorstValueWorstBand(worst: Option<real>, options: seq<Option<real>>, bands: seq<Band>,
                            worstKey: MetricKey, worstBounds: map<MetricKey, Bounds>, key: MetricKey, bounds: map<MetricKey, Bounds>)
    requires IsWorst(worst, options)
    requires |bands| == |options| && forall i :: 0 <= i < |bands| ==> bands[i] == ClassifyBand(options[i], key, bounds)
    requires key in bounds && worstKey in worstBounds && bounds[key] == worstBounds[worstKey] && Ordered(bounds[key])
    ensures IsWorstBand(ClassifyBand(worst, worstKey, worstBounds), bands)
  {
    var band := ClassifyBand(worst, worstKey, worstBounds);
    forall i | 0 <= i < |bands|
      ensures BandFloor(bands[i]) <= BandFloor(band)
      ensures worst.None? ==> bands[i] == Unknown
    {
      if options[i].Some? {
        assert options[i] in options && options[i] == Some(options[i].value);
        ClassifyMonotone(key, options[i].value, worst.value, bounds);
      }
    }
    if worst.Some? {
      var i :| 0 <= i < |options| && options[i] == worst;
      assert bands[i] == band;
    }
  }

  /**
   On every rolled-up key, the ten shared ones and the two computed separately, the cluster's band is
   the worst known host band.
   */
  lemma ClusterBandIsWorstHostBand(snap: Snapshot, monster: MonsterVmSettings, parse: string -> Option<real>,
                                   hostKey: MetricKey, clusterKey: MetricKey)
    requires RollsUp(hostKey, clusterKey)
    ensures hostKey in HOST_KEYS && clusterKey in CLUSTER_KEYS
    ensures IsWorstBand(ClusterBand(snap, monster, parse, clusterKey), BandColumn(snap, monster, hostKey))
  {
    hide HostMetric, IsWorst, IsWorstBand, ClusterValues, ClassifyBand, RollsUp;
    SameLines(hostKey, clusterKey);
    KeyedValues(snap, monster, parse);
    RolledValue(snap, monster, parse, hostKey, clusterKey);
    WorstValueWorstBand(ClusterValues(snap, monster, parse)[clusterKey], Column(snap, monster, snap.hosts, hostKey),
                        BandColumn(snap, monster, hostKey), clusterKey, CLUSTER_SCOPE.bounds, hostKey, HOST_SCOPE.bounds);
  }

  /** On a P90 key the cluster's band is no worse than the worst host band, and no better than the best known one. */
  lemma ClusterP90BandWithinHosts(snap: Snapshot, monster: MonsterVmSettings, parse: string -> Option<real>, b: Bucket)
    ensures P90Vm(b) in HOST_KEYS && P90Vm(b) in CLUSTER_KEYS
    ensures var band := ClusterBand(snap, monster, parse, P90Vm(b));
      var hosts := BandColumn(snap, monster, P90Vm(b));
      && (band == Unknown <==> forall i :: 0 <= i < |hosts| ==> hosts[i] == Unknown)
      && (band != Unknown ==>
            && (exists i :: 0 <= i < |hosts| && BandFloor(band) <= BandFloor(hosts[i]))
            && (exists i :: 0 <= i < |hosts| && hosts[i] != Unknown && BandFloor(hosts[i]) <= BandFloor(band)))
  {
    hide HostMetric, ClusterMetric, ClusterValues, ClassifyBand, IsVmPair, Ordered, BandFloor, CLUSTER_KEYS, CLUSTER_SCOPE,
         HOST_SCOPE, CLUSTER_ONLY_KEYS;
    SameP90Lines(b);
    KeyedValues(snap, monster, parse);
    ClusterP90BetweenHosts(snap, monster, b);
    P90BandBetween(ClusterMetric(snap, monster, P90Vm(b)), Column(snap, monster, snap.hosts, P90Vm(b)),
                   BandColumn(snap, monster, P90Vm(b)), P90Vm(b), CLUSTER_SCOPE.bounds, HOST_SCOPE.bounds);
  }

  lemma P90BandBetween(cluster: Option<real>, options: seq<Option<real>>, bands: seq<Band>, k: MetricKey,
                       clusterBounds: map<MetricKey, Bounds>, bounds: map<MetricKey, Bounds>)
    requires |bands| == |options| && forall i :: 0 <= i < |bands| ==> bands[i] == ClassifyBand(options[i], k, bounds)
    requires k in bounds && k in clusterBounds && bounds[k] == clusterBounds[k] && Ordered(bounds[k])
    requires cluster.None? <==> forall i :: 0 <= i < |options| ==> options[i].None?
    requires cluster.Some? ==> exists low :: 0 <= low < |options| && options[low].Some? && options[low].value <= cluster.value
    requires cluster.Some? ==> exists high :: 0 <= high < |options| && options[high].Some? && cluster.value <= options[high].value
    ensures var band := ClassifyBand(cluster, k, clusterBounds);
      && (band == Unknown <==> forall i :: 0 <= i < |bands| ==> bands[i] == Unknown)
      && (band != Unknown ==>
            && (exists i :: 0 <= i < |bands| && BandFloor(band) <= BandFloor(bands[i]))
            && (exists i :: 0 <= i < |bands| && bands[i] != Unknown && BandFloor(bands[i]) <= BandFloor(band)))
  {
    if cluster.Some? {
      var low :| 0 <= low < |options| && options[low].Some? && options[low].value <= cluster.value;
      var high :| 0 <= high < |options| && options[high].Some? && cluster.value <= options[high].value;
      ClassifyMonotone(k, options[low].value, cluster.value, bounds);
      ClassifyMonotone(k, cluster.value, options[high].value, bounds);
      assert bands[low] != Unknown && bands[high] != Unknown;
    }
  }

  /**
   No host is worse than its cluster on a rolled-up key: the cluster's composite band is at least
   every such host band. So a host that is red there makes the cluster's composite red, with a score of at least 63.
   */
  lemma HostNeverWorseThanCluster(snap: Snapshot, monster: MonsterVmSettings, parse: string -> Option<real>,
                                  i: nat, hostKey: MetricKey, clusterKey: MetricKey)
    requires RollsUp(hostKey, clusterKey) && i < |snap.hosts|
    ensures hostKey in HOST_KEYS
    ensures var values, band := ClusterValues(snap, monster, parse), HostBand(snap, monster, snap.hosts[i].id, hostKey);
      && BandFloor(band) <= BandFloor(CompositeBand(values, CLUSTER_SCOPE))
      && (band == Red ==> CompositeBand(values, CLUSTER_SCOPE) == Red && CompositeScore(values, CLUSTER_SCOPE) >= 63.0)
  {
    hide HostMetric, ClusterValues, ClassifyBand, RollsUp, CompositeBand, CompositeScore, HostBand, MaxRolled, ValidScope,
         Ordered, IsWorstBand, HOST_KEYS, CLUSTER_KEYS, SHARED_KEYS, CLUSTER_ONLY_KEYS, CLUSTER_SCOPE, HOST_SCOPE;
    var values := ClusterValues(snap, monster, parse);
    SameLines(hostKey, clusterKey);
    KeyedValues(snap, monster, parse);
    ClusterBandIsWorstHostBand(snap, monster, parse, hostKey, clusterKey);
    NoneWorse(ClusterBand(snap, monster, parse, clusterKey), BandColumn(snap, monster, hostKey), i);
    ShippedScopesValid();
    CompositeAtLeast(values, CLUSTER_SCOPE, clusterKey);
  }

  lemma NoneWorse(worst: Band, bands: seq<Band>, i: nat)
    requires IsWorstBand(worst, bands) && i < |bands|
    ensures BandFloor(bands[i]) <= BandFloor(worst)
  {
  }

  /** The composite is at least every metric's own band; a red metric makes it red. */
  lemma CompositeAtLeast<K>(values: map<K, Option<real>>, scope: Scope<K>, key: K)
    requires ValidScope(scope) && key in values && key in scope.bounds
    ensures BandFloor(ClassifyBand(values[key], key, scope.bounds)) <= BandFloor(CompositeBand(values, scope))
    ensures CompositeBand(values, scope) == Red ==> CompositeScore(values, scope) >= 63.0
  {
    hide CompositeBand, CompositeScore, ClassifyBand, RawScore, KnownBands;
    BandIsWorst(values, scope);
    assert Bands(values, scope)[key] == ClassifyBand(values[key], key, scope.bounds);
    ScoreRange(values, scope);
  }
}
