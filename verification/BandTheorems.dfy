/** What each band says of the values, from one metric to what is published (app/scoring.py, app/native_projection.py). */
module BandTheorems {
  import opened Common
  import opened Scoring
  import opened ScoringTheorems
  import opened NativeProjection
  import opened ProjectionTheorems

  // ----- one metric -----

  /** The three bounds part the known values of a metric into the four bands; a value on a bound is in the better one. */
  lemma BandByBounds<K>(value: Option<real>, key: K, bounds: map<K, Bounds>)
    requires key in bounds ==> Ordered(bounds[key])
    ensures var band := ClassifyBand(value, key, bounds);
      && (band == Unknown <==> value.None? || key !in bounds)
      && (band != Unknown ==>
            && (band == Green <==> value.value <= bounds[key].greenMax)
            && (BandFloor(band) <= BandFloor(Yellow) <==> value.value <= bounds[key].yellowMax)
            && (BandFloor(band) <= BandFloor(Orange) <==> value.value <= bounds[key].orangeMax))
    ensures BandFloor(Green) == 0.0 < BandFloor(Yellow) == 60.0 < BandFloor(Orange) == 80.0 < BandFloor(Red) == 90.0
  {
  }

  // ----- the composite band -----

  /** Some bounded metric is known. */
  ghost predicate SomeKnown<K(!new)>(values: map<K, Option<real>>, scope: Scope<K>) {
    exists k :: k in values && k in scope.bounds && values[k].Some?
  }

  /** Some bounded metric is known and above the bound that `limit` gives. */
  ghost predicate SomeAbove<K(!new)>(values: map<K, Option<real>>, scope: Scope<K>, limit: Bounds -> real) {
    exists k :: k in values && k in scope.bounds && values[k].Some? && values[k].value > limit(scope.bounds[k])
  }

  function GreenMax(): Bounds -> real {
    (b: Bounds) => b.greenMax
  }

  function YellowMax(): Bounds -> real {
    (b: Bounds) => b.yellowMax
  }

  function OrangeMax(): Bounds -> real {
    (b: Bounds) => b.orangeMax
  }

  /**
   The composite band by the values: red when some value is above its orange bound; orange when none is but some is
   above its yellow bound; yellow when none is but some is above its green bound; green when all known ones are within
   their green bounds; unknown when none is known.
   */
  lemma CompositeByBounds<K(!new)>(values: map<K, Option<real>>, scope: Scope<K>)
    requires ValidScope(scope)
    ensures CompositeBand(values, scope) == Red <==> SomeAbove(values, scope, OrangeMax())
    ensures CompositeBand(values, scope) == Orange <==>
      SomeAbove(values, scope, YellowMax()) && !SomeAbove(values, scope, OrangeMax())
    ensures CompositeBand(values, scope) == Yellow <==>
      SomeAbove(values, scope, GreenMax()) && !SomeAbove(values, scope, YellowMax())
    ensures CompositeBand(values, scope) == Green <==> SomeKnown(values, scope) && !SomeAbove(values, scope, GreenMax())
    ensures CompositeBand(values, scope) == Unknown <==> !SomeKnown(values, scope)
  {
    hide ClassifyBand, KnownBands;
    forall k | k in values && k in scope.bounds && values[k].Some?
      ensures Bands(values, scope)[k] in KnownBands(values, scope) && Bands(values, scope)[k] != Unknown
      ensures values[k].value > scope.bounds[k].greenMax <==> Bands(values, scope)[k] in {Yellow, Orange, Red}
      ensures values[k].value > scope.bounds[k].yellowMax <==> Bands(values, scope)[k] in {Orange, Red}
      ensures values[k].value > scope.bounds[k].orangeMax <==> Bands(values, scope)[k] == Red
    {
      BandByBounds(values[k], k, scope.bounds);
      InKnown(values, scope, k);
    }
    forall band | band in KnownBands(values, scope)
      ensures band != Unknown && exists k :: k in values && k in scope.bounds && values[k].Some? && Bands(values, scope)[k] == band
    {
      OfSome(values, scope, band);
    }
  }

  lemma InKnown<K>(values: map<K, Option<real>>, scope: Scope<K>, k: K)
    requires k in values && k in scope.bounds && values[k].Some?
    ensures Bands(values, scope)[k] in KnownBands(values, scope)
  {
  }

  lemma OfSome<K>(values: map<K, Option<real>>, scope: Scope<K>, band: Band)
    requires band in KnownBands(values, scope)
    ensures band != Unknown
    ensures exists k :: k in values && k in scope.bounds && values[k].Some? && Bands(values, scope)[k] == band
  {
  }

  // ----- how many metrics are in the worst band -----

  /** The metrics in one band. */
  ghost function InBand<K>(perMetric: map<K, Band>, band: Band): set<K> {
    set k | k in perMetric && perMetric[k] == band
  }

  ghost function KnownIn<K>(perMetric: map<K, Band>): set<K> {
    set k | k in perMetric && perMetric[k] != Unknown
  }

  /** The count is that of all known metrics exactly when they all share the band. */
  lemma AllInWorstBand<K>(band: Band, perMetric: map<K, Band>)
    requires band != Unknown
    ensures MetricsInWorstBand(band, perMetric) == Some(|KnownIn(perMetric)|)
      <==> forall k :: k in perMetric && perMetric[k] != Unknown ==> perMetric[k] == band
  {
    var all, own := KnownIn(perMetric), InBand(perMetric, band);
    assert own <= all;
    if exists k :: k in perMetric && perMetric[k] != Unknown && perMetric[k] != band {
      var k :| k in perMetric && perMetric[k] != Unknown && perMetric[k] != band;
      CardinalityMonotone(own, all - {k});
    } else {
      assert own == all;
    }
  }

  /** Moving one metric into the band, or out of it, changes its count by one, and any other move does not. */
  lemma OneMove<K>(band: Band, perMetric: map<K, Band>, key: K, to: Band)
    requires band != Unknown && key in perMetric
    ensures var before, after := MetricsInWorstBand(band, perMetric), MetricsInWorstBand(band, perMetric[key := to]);
      && before.Some? && after.Some?
      && after.value == before.value + (if to == band then 1 else 0) - (if perMetric[key] == band then 1 else 0)
  {
    var moved := perMetric[key := to];
    CountInBand(band, perMetric);
    CountInBand(band, moved);
    hide MetricsInWorstBand;
    OthersStay(band, perMetric, key, to);
    WithAndWithout(InBand(perMetric, band), key);
    WithAndWithout(InBand(moved, band), key);
  }

  lemma CountInBand<K>(band: Band, perMetric: map<K, Band>)
    requires band != Unknown
    ensures MetricsInWorstBand(band, perMetric) == Some(|InBand(perMetric, band)|)
  {
  }

  lemma OthersStay<K>(band: Band, perMetric: map<K, Band>, key: K, to: Band)
    requires key in perMetric
    ensures InBand(perMetric[key := to], band) - {key} == InBand(perMetric, band) - {key}
    ensures key in InBand(perMetric, band) <==> perMetric[key] == band
    ensures key in InBand(perMetric[key := to], band) <==> to == band
  {
  }

  lemma WithAndWithout<K>(keys: set<K>, key: K)
    ensures |keys| == |keys - {key}| + if key in keys then 1 else 0
  {
    assert key in keys ==> keys == (keys - {key}) + {key};
    assert key !in keys ==> keys == keys - {key};
  }

  /** Within one object: while the composite band stays, one metric's change moves the count by just its own band's coming or going. */
  lemma WorstCountMoves<K>(values: map<K, Option<real>>, key: K, value: Option<real>, scope: Scope<K>)
    requires key in values && key in scope.bounds
    requires CompositeBand(values[key := value], scope) == CompositeBand(values, scope) != Unknown
    ensures var worst := CompositeBand(values, scope);
      var before, after := MetricsInWorstBand(worst, Bands(values, scope)), MetricsInWorstBand(worst, Bands(values[key := value], scope));
      && before.Some? && after.Some?
      && after.value == before.value + (if ClassifyBand(value, key, scope.bounds) == worst then 1 else 0)
                        - (if ClassifyBand(values[key], key, scope.bounds) == worst then 1 else 0)
  {
    hide ClassifyBand, CompositeBand, MetricsInWorstBand;
    var changed := values[key := value];
    assert Bands(changed, scope) == Bands(values, scope)[key := ClassifyBand(value, key, scope.bounds)];
    OneMove(CompositeBand(values, scope), Bands(values, scope), key, ClassifyBand(value, key, scope.bounds));
  }

  /** An object with one known metric has its band, its floor as the score, and it alone in the worst band. */
  lemma OneKnownMetric<K(!new)>(values: map<K, Option<real>>, key: K, scope: Scope<K>)
    requires ValidScope(scope) && key in values && Counts(key, values[key], scope)
    requires forall k :: k in values && k != key ==> values[k].None?
    ensures var band := ClassifyBand(values[key], key, scope.bounds);
      && CompositeBand(values, scope) == band
      && CompositeScore(values, scope) == BandFloor(band)
      && key in Bands(values, scope) && Bands(values, scope)[key] == band
      && InBand(Bands(values, scope), band) == {key}
  {
    OneKnownBand(values, key, scope);
    OneKnownAverage(values, key, scope);
    hide KnownBands, Bands, WeightedAverage, ClassifyBand;
    WholeFloors(ClassifyBand(values[key], key, scope.bounds));
  }

  lemma OneKnownBand<K(!new)>(values: map<K, Option<real>>, key: K, scope: Scope<K>)
    requires key in values && key in scope.bounds && ClassifyBand(values[key], key, scope.bounds) != Unknown
    requires forall k :: k in values && k != key ==> values[k].None?
    ensures var band := ClassifyBand(values[key], key, scope.bounds);
      && CompositeBand(values, scope) == band
      && key in Bands(values, scope) && Bands(values, scope)[key] == band
      && InBand(Bands(values, scope), band) == {key}
  {
    var band, bands := ClassifyBand(values[key], key, scope.bounds), Bands(values, scope);
    assert bands[key] == band;
    assert forall k :: k in bands && k != key ==> bands[k] == Unknown;
    hide ClassifyBand;
    assert KnownBands(values, scope) == {band};
  }

  lemma OneKnownAverage<K(!new)>(values: map<K, Option<real>>, key: K, scope: Scope<K>)
    requires ValidScope(scope) && key in values && Counts(key, values[key], scope)
    requires forall k :: k in values && k != key ==> values[k].None?
    ensures WeightedAverage(values, scope) == BandFloor(ClassifyBand(values[key], key, scope.bounds))
  {
    forall k | k in values && k != key ensures !Counts(k, values[k], scope) {
    }
    OnlyTerm(values, key, scope);
    var band, weight := ClassifyBand(values[key], key, scope.bounds), scope.Weight(key);
    hide ClassifyBand, Counts, ScoreTerms, WeightTerms, Ratio;
    FloorTimesIsProduct(band, weight);
    RatioAlone(0.0, BandFloor(band), weight);
  }

  lemma WholeFloors(band: Band)
    ensures RoundTenths(Clamp(0.7 * BandFloor(band) + 0.3 * BandFloor(band))) == BandFloor(band)
  {
  }

  // ----- what is published of it -----

  /** How many of these attributes have this value. */
  ghost function HowMany(attributes: seq<(string, string)>, value: string): nat {
    if attributes == [] then 0
    else HowMany(attributes[..|attributes| - 1], value) + if attributes[|attributes| - 1].1 == value then 1 else 0
  }

  lemma HowManyAppend(attributes: seq<(string, string)>, more: seq<(string, string)>, value: string)
    requires |more| <= 1
    ensures HowMany(attributes + more, value) == HowMany(attributes, value) + if more != [] && more[0].1 == value then 1 else 0
  {
    if more == [] {
      assert attributes + more == attributes;
    } else {
      assert (attributes + more)[..|attributes|] == attributes;
    }
  }

  /** The metrics of these rows that are in one band. */
  ghost function RowsIn<K>(mapping: seq<Row<K>>, values: map<K, Option<real>>, perMetric: map<K, Band>, band: Band): set<K> {
    if mapping == [] then {}
    else
      var row := mapping[|mapping| - 1];
      RowsIn(mapping[..|mapping| - 1], values, perMetric, band)
      + if row.key in values && BandOf(perMetric, row.key) == band then {row.key} else {}
  }

  lemma {:induction false} RowsInAre<K>(mapping: seq<Row<K>>, values: map<K, Option<real>>, perMetric: map<K, Band>, band: Band, k: K)
    ensures k in RowsIn(mapping, values, perMetric, band) <==>
      exists i :: 0 <= i < |mapping| && mapping[i].key == k && k in values && BandOf(perMetric, k) == band
  {
    hide BandOf;
    if mapping != [] {
      var n := |mapping| - 1;
      RowsInAre(mapping[..n], values, perMetric, band, k);
      assert forall i :: 0 <= i < n ==> mapping[..n][i] == mapping[i];
    }
  }

  lemma BandNamesDiffer(a: Band, b: Band)
    ensures BandName(a) == BandName(b) <==> a == b
  {
  }

  lemma {:induction false} RowsOfBand<K(!new)>(mapping: seq<Row<K>>, values: map<K, Option<real>>, perMetric: map<K, Band>, band: Band)
    requires DistinctKeys(mapping)
    ensures HowMany(RowBands(mapping, values, perMetric), BandName(band)) == |RowsIn(mapping, values, perMetric, band)|
  {
    if mapping != [] {
      var n := |mapping| - 1;
      InitDistinct(mapping);
      LastRow(mapping, values, perMetric, band);
      hide *;
      RowsOfBand(mapping[..n], values, perMetric, band);
    }
  }

  lemma InitDistinct<K(!new)>(mapping: seq<Row<K>>)
    requires DistinctKeys(mapping) && mapping != []
    ensures DistinctKeys(mapping[..|mapping| - 1])
    ensures forall row :: row in mapping[..|mapping| - 1] ==> row.key != mapping[|mapping| - 1].key
  {
  }

  /** One more row: what it adds to the bands that are written, and to the metrics in one band. */
  lemma LastRow<K(!new)>(mapping: seq<Row<K>>, values: map<K, Option<real>>, perMetric: map<K, Band>, band: Band)
    requires DistinctKeys(mapping) && mapping != []
    ensures var init, row := mapping[..|mapping| - 1], mapping[|mapping| - 1];
      var own := if row.key in values && BandOf(perMetric, row.key) == band then 1 else 0;
      && HowMany(RowBands(mapping, values, perMetric), BandName(band))
         == HowMany(RowBands(init, values, perMetric), BandName(band)) + own
      && |RowsIn(mapping, values, perMetric, band)| == |RowsIn(init, values, perMetric, band)| + own
  {
    hide BandOf, BandName, Row.BandAttr, HowMany, DistinctKeys;
    var init, row := mapping[..|mapping| - 1], mapping[|mapping| - 1];
    InitDistinct(mapping);
    RowsInAre(init, values, perMetric, band, row.key);
    BandNamesDiffer(BandOf(perMetric, row.key), band);
    var own := if row.key in values then [(row.BandAttr(), BandName(BandOf(perMetric, row.key)))] else [];
    HowManyAppend(RowBands(init, values, perMetric), own, BandName(band));
  }

  /**
   The published worst-band count: it is the number of the object's published row bands that read the same as its
   published composite band, and the published level is that of this band.
   */
  lemma PublishedWorstCount<K(!new)>(mapping: seq<Row<K>>, values: map<K, Option<real>>, scored: Scored<K>, scope: Scope<K>)
    requires ScoredFrom(scored, values, scope) && RowsCover(mapping, scope) && scored.band != Unknown
    ensures var count := HowMany(RowBands(mapping, values, scored.perMetric), BandName(scored.band));
      var level := match scored.band case Green => 0.0 case Yellow => 1.0 case Orange => 2.0 case _ => 3.0;
      CompositeExtras(scored) == [(COMPOSITE_BAND_LEVEL_ATTR, level), (COMPOSITE_WORST_COUNT_ATTR, count as real)]
  {
    hide CompositeBand, CompositeScore, BandName, ClassifyBand, COMPOSITE_BAND_LEVEL_ATTR, COMPOSITE_WORST_COUNT_ATTR;
    RowsOfBand(mapping, values, scored.perMetric, scored.band);
    RowsAreMetrics(mapping, values, scope, scored.band);
  }

  lemma RowsAreMetrics<K(!new)>(mapping: seq<Row<K>>, values: map<K, Option<real>>, scope: Scope<K>, band: Band)
    requires RowsCover(mapping, scope) && band != Unknown
    ensures RowsIn(mapping, values, Bands(values, scope), band) == InBand(Bands(values, scope), band)
  {
    hide ClassifyBand;
    var perMetric := Bands(values, scope);
    forall k ensures k in RowsIn(mapping, values, perMetric, band) <==> k in InBand(perMetric, band) {
      RowsInAre(mapping, values, perMetric, band, k);
    }
  }

  /** Of distinct names the composite band attribute is written once, and reads as the composite band. */
  lemma OneBandText<K(!new)>(mapping: seq<Row<K>>, values: map<K, Option<real>>, scored: Scored<K>, text: string)
    requires DistinctNames(mapping)
    ensures (COMPOSITE_BAND_ATTR, text) in Properties(mapping, values, scored) <==> text == BandName(scored.band)
  {
    hide Row.MetricAttr, Row.BandAttr, BandName, RowBands, COMPOSITE_BAND_ATTR;
    RowBandsAre(mapping, values, scored.perMetric, COMPOSITE_BAND_ATTR);
    WritesIfIn(RowBands(mapping, values, scored.perMetric), COMPOSITE_BAND_ATTR, text);
    ScoreThenExtras(mapping, values, scored);
  }

  lemma WritesIfIn(attributes: seq<(string, string)>, name: string, text: string)
    ensures (name, text) in attributes ==> Writes(attributes, name)
  {
    if (name, text) in attributes {
      var i :| 0 <= i < |attributes| && attributes[i] == (name, text);
      assert attributes[i].0 == name;
    }
  }

  /** What the published composite band reads as, by the values. */
  lemma PublishedBand<K(!new)>(mapping: seq<Row<K>>, values: map<K, Option<real>>, scored: Scored<K>, scope: Scope<K>)
    requires DistinctNames(mapping) && ScoredFrom(scored, values, scope) && ValidScope(scope)
    ensures var properties := Properties(mapping, values, scored);
      && ((COMPOSITE_BAND_ATTR, "red") in properties <==> SomeAbove(values, scope, OrangeMax()))
      && ((COMPOSITE_BAND_ATTR, "orange") in properties <==>
            SomeAbove(values, scope, YellowMax()) && !SomeAbove(values, scope, OrangeMax()))
      && ((COMPOSITE_BAND_ATTR, "yellow") in properties <==>
            SomeAbove(values, scope, GreenMax()) && !SomeAbove(values, scope, YellowMax()))
      && ((COMPOSITE_BAND_ATTR, "green") in properties <==> SomeKnown(values, scope) && !SomeAbove(values, scope, GreenMax()))
      && ((COMPOSITE_BAND_ATTR, "unknown") in properties <==> !SomeKnown(values, scope))
  {
    hide Properties, CompositeBand, CompositeScore, SomeAbove, SomeKnown, DistinctNames, ValidScope, COMPOSITE_BAND_ATTR, Bands;
    CompositeByBounds(values, scope);
    forall text: string ensures (COMPOSITE_BAND_ATTR, text) in Properties(mapping, values, scored) <==> text == BandName(scored.band) {
      OneBandText(mapping, values, scored, text);
    }
    NamesDiffer();
  }

  lemma NamesDiffer()
    ensures "red" != "orange" && "red" != "yellow" && "red" != "green" && "red" != "unknown"
    ensures "orange" != "yellow" && "orange" != "green" && "orange" != "unknown"
    ensures "yellow" != "green" && "yellow" != "unknown" && "green" != "unknown"
  {
    assert "red"[0] == 'r' && "orange"[0] == 'o' && "yellow"[0] == 'y' && "green"[0] == 'g' && "unknown"[0] == 'u';
  }

  lemma OneValue(attributes: seq<(string, string)>, name: string, own: string, text: string)
    requires NoRepeats(attributes) && (name, own) in attributes
    ensures (name, text) in attributes <==> text == own
  {
    if (name, text) in attributes {
      var i :| 0 <= i < |attributes| && attributes[i] == (name, own);
      var j :| 0 <= j < |attributes| && attributes[j] == (name, text);
      assert i == j;
    }
  }

  /** A row's band property reads as the band of the row's own value: "unknown" also when its key has no bounds. */
  lemma PublishedRowBand<K(!new)>(mapping: seq<Row<K>>, values: map<K, Option<real>>, scored: Scored<K>, scope: Scope<K>, i: nat,
                                  text: string)
    requires DistinctNames(mapping) && ScoredFrom(scored, values, scope) && i < |mapping| && mapping[i].key in values
    ensures (mapping[i].BandAttr(), text) in Properties(mapping, values, scored)
      <==> text == BandName(ClassifyBand(values[mapping[i].key], mapping[i].key, scope.bounds))
  {
    hide Properties, Row.BandAttr, Row.MetricAttr, BandName, CompositeBand, CompositeScore, DistinctNames, NoRepeats;
    PropertiesAgree(mapping, values, scored);
    ContentsAgree(mapping, values, scored);
    assert BandOf(scored.perMetric, mapping[i].key) == ClassifyBand(values[mapping[i].key], mapping[i].key, scope.bounds);
    OneValue(Properties(mapping, values, scored), mapping[i].BandAttr(), BandName(BandOf(scored.perMetric, mapping[i].key)), text);
  }
}
