/** Two concrete hosts: one with a DRAM tier, from its readings to its values; one that is orange, from its values to what is published. */
module HostExamples {
  import opened Common
  import opened Constants
  import opened Scoring
  import opened BandTheorems
  import opened Thresholds
  import opened ScoringExamples
  import opened Traversal
  import opened Meanings
  import opened Losses
  import opened NativeProjection
  import opened Projections
  import opened ProjectionTheorems
  import opened Adapter

  // ----- a memory-tiered host -----

  /** 100 GB of DRAM, when it is known, in 400 GB of provisioned memory, and two VMs of 100 GB. */
  function TieredHost(dramKnown: bool): Snapshot {
    Snapshot("c", [Resource("h", "h")], map["h" := [Resource("a", "a"), Resource("b", "b")]],
             map[("h", HostStatkey(TotalCapacityKb)) := 419430400.0, ("h", HostStatkey(BalloonKb)) := 4194304.0,
                 ("a", VmStatkey(MemoryKb)) := 104857600.0, ("b", VmStatkey(MemoryKb)) := 104857600.0]
             + (if dramKnown then map[("h", HostStatkey(DramCapacityKb)) := 104857600.0] else map[]),
             map[], 0)
  }

  lemma TieredKeys()
    ensures HostStatkey(DramCapacityKb) != HostStatkey(TotalCapacityKb) && HostStatkey(BalloonKb) != HostStatkey(TotalCapacityKb)
    ensures HostStatkey(DramCapacityKb) != HostStatkey(BalloonKb)
    ensures HostStatkey(MemAllocatedKb) !in {HostStatkey(DramCapacityKb), HostStatkey(TotalCapacityKb), HostStatkey(BalloonKb)}
  {
    assert HostStatkey(DramCapacityKb)[3] == ':' && HostStatkey(TotalCapacityKb)[4] == 'h';
    assert HostStatkey(BalloonKb)[4] == 'v' && HostStatkey(MemAllocatedKb)[4] == 'm';
    assert HostStatkey(BalloonKb)[3] == '|' && HostStatkey(TotalCapacityKb)[3] == '|' && HostStatkey(MemAllocatedKb)[3] == '|';
  }

  lemma TieredReadings(dramKnown: bool)
    ensures var snap := TieredHost(dramKnown);
      && snap.Host("h", DramCapacityKb) == (if dramKnown then Some(104857600.0) else None)
      && snap.Host("h", TotalCapacityKb) == Some(419430400.0) && snap.Host("h", BalloonKb) == Some(4194304.0)
      && snap.Host("h", MemAllocatedKb) == None
  {
    hide HostStatkey, VmStatkey;
    TieredKeys();
    assert "h" != "a" && "h" != "b";
  }

  lemma TieredVms(dramKnown: bool)
    ensures VmMemoryKb(TieredHost(dramKnown), "h") == 209715200.0
  {
    hide SumSeq, VmSamples, HostStatkey, VmStatkey, Snapshot.Host;
    var snap := TieredHost(dramKnown);
    var one, two := [Resource("a", "a")], [Resource("a", "a"), Resource("b", "b")];
    TieredReadings(dramKnown);
    assert "h" != "a" && "h" != "b" && "a" != "b";
    assert two[..1] == one && one[..0] == [];
    SumStep(snap, two, MemoryKb);
    SumStep(snap, one, MemoryKb);
    NoSum(snap, one[..0], MemoryKb);
  }

  /** The DRAM is the memory: 2 of it are allocated and 4 % ballooned. Without it the provisioned memory is, and it is 0.5 and 1 %. */
  lemma TieredHostReadsDram(monster: MonsterVmSettings)
    ensures {HostMemoryOvercommitRatio, HostMemoryBallooned} <= HOST_KEYS
    ensures HostMetric(TieredHost(true), monster, "h", HostMemoryOvercommitRatio) == Some(2.0)
    ensures HostMetric(TieredHost(true), monster, "h", HostMemoryBallooned) == Some(4.0)
    ensures HostMetric(TieredHost(false), monster, "h", HostMemoryOvercommitRatio) == Some(0.5)
    ensures HostMetric(TieredHost(false), monster, "h", HostMemoryBallooned) == Some(1.0)
  {
    hide HostMetric, TieredHost, VmMemoryKb, IsLargestOver, IsMemoryLimit, Snapshot.Host, HOST_KEYS;
    MemoryKeys();
    TieredReadings(true);
    TieredReadings(false);
    TieredVms(true);
    TieredVms(false);
    MemoryIsDram(TieredHost(true), monster, "h");
    MemoryIsDram(TieredHost(false), monster, "h");
  }

  // ----- an orange host -----

  /** A host of which only the worst vCPU ready is known, and between its yellow and its orange bound of 8 and 16. */
  const ORANGE_HOST: map<MetricKey, Option<real>> := map k | k in HOST_KEYS :: if k == WorstVm(VcpuReady) then Some(10.0) else None

  lemma OnlyReadyIsKnown()
    ensures WorstVm(VcpuReady) in ORANGE_HOST && ORANGE_HOST[WorstVm(VcpuReady)] == Some(10.0)
    ensures ORANGE_HOST.Keys == HOST_KEYS
    ensures forall k :: k in ORANGE_HOST && k != WorstVm(VcpuReady) ==> ORANGE_HOST[k].None?
  {
    hide VM_PAIR_KEYS, HOST_ROLLED_KEYS, HOST_ONLY_KEYS;
    VmPairKeys();
  }

  lemma ReadyIsOrange()
    ensures WorstVm(VcpuReady) in HOST_KEYS && HOST_SCOPE.Weight(WorstVm(VcpuReady)) == 1.0
    ensures ClassifyBand(Some(10.0), WorstVm(VcpuReady), HOST_SCOPE.bounds) == Orange
    ensures Counts(WorstVm(VcpuReady), Some(10.0), HOST_SCOPE)
  {
    hide *;
    OnlyReadyIsKnown();
    HostBounds(WorstVm(VcpuReady));
    HostWeight(WorstVm(VcpuReady));
    ReadyBounds();
    OrangeCounts(WorstVm(VcpuReady), 10.0, HOST_SCOPE);
  }

  /** A value between the yellow and the orange bound is orange, and counts. */
  lemma OrangeCounts(key: MetricKey, value: real, scope: Scope<MetricKey>)
    requires key in scope.bounds && scope.bounds[key].greenMax < value && scope.bounds[key].yellowMax < value <= scope.bounds[key].orangeMax
    ensures ClassifyBand(Some(value), key, scope.bounds) == Orange && Counts(key, Some(value), scope)
  {
  }

  lemma ReadyBounds()
    ensures BoundsOf(WorstVm(VcpuReady)) == Bounds(4.0, 8.0, 16.0) && WeightOf(WorstVm(VcpuReady)) == 1.0
  {
  }

  /** In every dictionary that knows just this, it is orange, with a score of 80, and the only metric in that band. */
  lemma OnlyReady(values: map<MetricKey, Option<real>>)
    requires WorstVm(VcpuReady) in values && values[WorstVm(VcpuReady)] == Some(10.0)
    requires forall k :: k in values && k != WorstVm(VcpuReady) ==> values[k].None?
    ensures ScoredOf(values, HOST_SCOPE).score == 80.0 && ScoredOf(values, HOST_SCOPE).band == Orange
    ensures BandOf(Bands(values, HOST_SCOPE), WorstVm(VcpuReady)) == Orange
    ensures CompositeExtras(ScoredOf(values, HOST_SCOPE)) == [(COMPOSITE_BAND_LEVEL_ATTR, 2.0), (COMPOSITE_WORST_COUNT_ATTR, 1.0)]
  {
    hide *;
    ShippedScopesValid();
    ReadyIsOrange();
    OneKnownMetric(values, WorstVm(VcpuReady), HOST_SCOPE);
    CountInBand(Orange, Bands(values, HOST_SCOPE));
    AsScored(values);
  }

  lemma AsScored(values: map<MetricKey, Option<real>>)
    requires CompositeBand(values, HOST_SCOPE) == Orange && CompositeScore(values, HOST_SCOPE) == BandFloor(Orange)
    requires WorstVm(VcpuReady) in Bands(values, HOST_SCOPE) && Bands(values, HOST_SCOPE)[WorstVm(VcpuReady)] == Orange
    requires InBand(Bands(values, HOST_SCOPE), Orange) == {WorstVm(VcpuReady)}
    requires MetricsInWorstBand(Orange, Bands(values, HOST_SCOPE)) == Some(|InBand(Bands(values, HOST_SCOPE), Orange)|)
    ensures ScoredOf(values, HOST_SCOPE).score == 80.0 && ScoredOf(values, HOST_SCOPE).band == Orange
    ensures BandOf(Bands(values, HOST_SCOPE), WorstVm(VcpuReady)) == Orange
    ensures CompositeExtras(ScoredOf(values, HOST_SCOPE)) == [(COMPOSITE_BAND_LEVEL_ATTR, 2.0), (COMPOSITE_WORST_COUNT_ATTR, 1.0)]
  {
    hide HOST_SCOPE, CompositeBand, CompositeScore, Bands, InBand, MetricsInWorstBand, COMPOSITE_BAND_LEVEL_ATTR,
         COMPOSITE_WORST_COUNT_ATTR;
    var ready := WorstVm(VcpuReady);
    assert |{ready}| == 1;
    OneInOrange(ScoredOf(values, HOST_SCOPE));
  }

  lemma OneInOrange(scored: Scored<MetricKey>)
    requires scored.band == Orange && MetricsInWorstBand(Orange, scored.perMetric) == Some(1)
    ensures CompositeExtras(scored) == [(COMPOSITE_BAND_LEVEL_ATTR, 2.0), (COMPOSITE_WORST_COUNT_ATTR, 1.0)]
  {
    hide MetricsInWorstBand, COMPOSITE_BAND_LEVEL_ATTR, COMPOSITE_WORST_COUNT_ATTR;
  }

  /** When one row of a table is the only one with a known value, its metric is the only one of the rows. */
  lemma {:induction false} OneKnownRow(mapping: seq<Row<MetricKey>>, values: map<MetricKey, Option<real>>, i: nat)
    requires i < |mapping| && mapping[i].key in values && values[mapping[i].key].Some?
    requires forall j :: 0 <= j < |mapping| && j != i && mapping[j].key in values ==> values[mapping[j].key].None?
    ensures RowMetrics(mapping, values) == [(mapping[i].MetricAttr(), values[mapping[i].key].value)]
  {
    hide Row.MetricAttr;
    var n := |mapping| - 1;
    assert forall j :: 0 <= j < n ==> mapping[..n][j] == mapping[j];
    if i < n {
      OneKnownRow(mapping[..n], values, i);
    } else {
      NoneKnownRow(mapping[..n], values);
    }
  }

  lemma {:induction false} NoneKnownRow(mapping: seq<Row<MetricKey>>, values: map<MetricKey, Option<real>>)
    requires forall j :: 0 <= j < |mapping| && mapping[j].key in values ==> values[mapping[j].key].None?
    ensures RowMetrics(mapping, values) == []
  {
    hide Row.MetricAttr;
    if mapping != [] {
      var n := |mapping| - 1;
      assert forall j :: 0 <= j < n ==> mapping[..n][j] == mapping[j];
      NoneKnownRow(mapping[..n], values);
    }
  }

  const READY_ROW: Row<MetricKey> := Row(WorstVm(VcpuReady), "Contention", "Worst vCPU Ready Pct")

  lemma ReadyRow()
    ensures |HOST_PROJECTION| > 0 && HOST_PROJECTION[0] == READY_ROW && READY_ROW.key == WorstVm(VcpuReady)
    ensures forall j :: 0 < j < |HOST_PROJECTION| ==> HOST_PROJECTION[j].key != WorstVm(VcpuReady)
  {
    hide HOST_ROWS, HOST_SCOPE;
    FirstRow();
    ShippedRowsCover();
    hide SHARED_PROJECTION;
    assert HOST_PROJECTION[0] == SHARED_PROJECTION[0];
  }

  lemma FirstRow()
    ensures |SHARED_PROJECTION| > 0 && SHARED_PROJECTION[0] == READY_ROW
  {
  }

  /**
   All that is published of the orange host: its value, the score 80, the level 2, one metric in the worst band, and both
   bands as "orange".
   */
  lemma OrangeHostIsPublished()
    ensures Metrics(HOST_PROJECTION, ORANGE_HOST, ScoredOf(ORANGE_HOST, HOST_SCOPE)) == [
      (READY_ROW.MetricAttr(), 10.0), (COMPOSITE_SCORE_ATTR, 80.0), (COMPOSITE_BAND_LEVEL_ATTR, 2.0), (COMPOSITE_WORST_COUNT_ATTR, 1.0)]
    ensures var properties := Properties(HOST_PROJECTION, ORANGE_HOST, ScoredOf(ORANGE_HOST, HOST_SCOPE));
      (READY_ROW.BandAttr(), "orange") in properties && (COMPOSITE_BAND_ATTR, "orange") in properties
  {
    hide *;
    OnlyReadyIsKnown();
    OnlyReady(ORANGE_HOST);
    ReadyRow();
    PerMetricOf(ORANGE_HOST);
    OrangePublished(HOST_PROJECTION, ORANGE_HOST, ScoredOf(ORANGE_HOST, HOST_SCOPE));
  }

  lemma OrangePublished(mapping: seq<Row<MetricKey>>, values: map<MetricKey, Option<real>>, scored: Scored<MetricKey>)
    requires |mapping| > 0 && mapping[0].key in values && values[mapping[0].key] == Some(10.0)
    requires forall j :: 0 < j < |mapping| && mapping[j].key in values ==> values[mapping[j].key].None?
    requires scored.score == 80.0 && scored.band == Orange && BandOf(scored.perMetric, mapping[0].key) == Orange
    requires CompositeExtras(scored) == [(COMPOSITE_BAND_LEVEL_ATTR, 2.0), (COMPOSITE_WORST_COUNT_ATTR, 1.0)]
    ensures Metrics(mapping, values, scored) == [
      (mapping[0].MetricAttr(), 10.0), (COMPOSITE_SCORE_ATTR, 80.0), (COMPOSITE_BAND_LEVEL_ATTR, 2.0), (COMPOSITE_WORST_COUNT_ATTR, 1.0)]
    ensures (mapping[0].BandAttr(), "orange") in Properties(mapping, values, scored)
    ensures (COMPOSITE_BAND_ATTR, "orange") in Properties(mapping, values, scored)
  {
    hide *;
    OneKnownRow(mapping, values, 0);
    MetricsAre(mapping, values, scored);
    FirstBand(mapping, values, scored);
    OrangeText();
  }

  lemma FirstBand(mapping: seq<Row<MetricKey>>, values: map<MetricKey, Option<real>>, scored: Scored<MetricKey>)
    requires |mapping| > 0 && mapping[0].key in values
    ensures var properties := Properties(mapping, values, scored);
      && (mapping[0].BandAttr(), BandName(BandOf(scored.perMetric, mapping[0].key))) in properties
      && (COMPOSITE_BAND_ATTR, BandName(scored.band)) in properties
  {
    hide *;
    ContentsAgree(mapping, values, scored);
  }

  lemma MetricsAre(mapping: seq<Row<MetricKey>>, values: map<MetricKey, Option<real>>, scored: Scored<MetricKey>)
    ensures Metrics(mapping, values, scored)
            == RowMetrics(mapping, values) + [(COMPOSITE_SCORE_ATTR, scored.score)] + CompositeExtras(scored)
  {
  }

  lemma OrangeText()
    ensures BandName(Orange) == "orange"
  {
  }

  lemma PerMetricOf(values: map<MetricKey, Option<real>>)
    ensures ScoredOf(values, HOST_SCOPE).perMetric == Bands(values, HOST_SCOPE)
  {
    hide HOST_SCOPE;
  }
}
