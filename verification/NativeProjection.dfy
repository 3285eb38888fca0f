/** Writing values, bands and the composite onto a native object (app/native_projection.py). */
module NativeProjection {
  import opened Common
  import opened Scoring
  import opened ScoringTheorems

  const NATIVE_ROOT := "Performance Risk"
  const COMPOSITE_SCORE_ATTR := "Performance Risk|Composite|Risk Score"
  const COMPOSITE_BAND_ATTR := "Performance Risk|Composite|Risk Band"
  const COMPOSITE_BAND_LEVEL_ATTR := "Performance Risk|Composite|Risk Band Level"
  const COMPOSITE_WORST_COUNT_ATTR := "Performance Risk|Composite|Metrics In Worst Band"

  /** One row of a projection table: a metric key and its place on the object. */
  datatype Row<K> = Row(key: K, group: string, title: string) {
    function MetricAttr(): string {
      NATIVE_ROOT + "|" + group + "|" + title
    }

    function BandAttr(): string {
      MetricAttr() + " Band"
    }
  }

  function BandName(band: Band): string {
    match band
    case Green => "green"
    case Yellow => "yellow"
    case Orange => "orange"
    case Red => "red"
    case Unknown => "unknown"
  }

  /** A native object as this pack sees it: the attributes it has been given this cycle. */
  class NativeObject {
    var metrics: seq<(string, real)>
    var properties: seq<(string, string)>

    constructor ()
      ensures metrics == [] && properties == []
    {
      metrics, properties := [], [];
    }

    method WithMetric(name: string, value: real)
      modifies this`metrics
      ensures metrics == old(metrics) + [(name, value)]
    {
      metrics := metrics + [(name, value)];
    }

    method WithProperty(name: string, value: string)
      modifies this`properties
      ensures properties == old(properties) + [(name, value)]
    {
      properties := properties + [(name, value)];
    }
  }

  // ----- what is written -----

  function RowMetrics<K(==)>(mapping: seq<Row<K>>, values: map<K, Option<real>>): seq<(string, real)> {
    if mapping == [] then []
    else
      var row := mapping[|mapping| - 1];
      RowMetrics(mapping[..|mapping| - 1], values)
      + if row.key in values && values[row.key].Some? then [(row.MetricAttr(), values[row.key].value)] else []
  }

  function BandOf<K(==)>(perMetric: map<K, Band>, key: K): Band {
    if key in perMetric then perMetric[key] else Unknown
  }

  function RowBands<K(==)>(mapping: seq<Row<K>>, values: map<K, Option<real>>, perMetric: map<K, Band>): seq<(string, string)> {
    if mapping == [] then []
    else
      var row := mapping[|mapping| - 1];
      RowBands(mapping[..|mapping| - 1], values, perMetric)
      + if row.key in values then [(row.BandAttr(), BandName(BandOf(perMetric, row.key)))] else []
  }

  /** Band level and worst-band count come together, or not at all. */
  function CompositeExtras<K(==)>(scored: Scored<K>): seq<(string, real)> {
    var count := MetricsInWorstBand(scored.band, scored.perMetric);
    if count.None? then []
    else [(COMPOSITE_BAND_LEVEL_ATTR, BandLevel(scored.band).value as real), (COMPOSITE_WORST_COUNT_ATTR, count.value as real)]
  }

  function Metrics<K(==)>(mapping: seq<Row<K>>, values: map<K, Option<real>>, scored: Scored<K>): seq<(string, real)> {
    RowMetrics(mapping, values) + [(COMPOSITE_SCORE_ATTR, scored.score)] + CompositeExtras(scored)
  }

  function Properties<K(==)>(mapping: seq<Row<K>>, values: map<K, Option<real>>, scored: Scored<K>): seq<(string, string)> {
    RowBands(mapping, values, scored.perMetric) + [(COMPOSITE_BAND_ATTR, BandName(scored.band))]
  }

  /**
   Writes one object's values. The object is the result of the native lookup: null when its
   resource key is missing or unusable, and then nothing is written. The count is that of the
   attributes written, which is that of their distinct names when the table's names are distinct.
   */
  method Project<K(==, !new)>(target: NativeObject?, values: map<K, Option<real>>, scored: Scored<K>, mapping: seq<Row<K>>)
    returns (count: nat)
    modifies target
    ensures target == null ==> count == 0
    ensures target != null ==>
      && target.metrics == old(target.metrics) + Metrics(mapping, values, scored)
      && target.properties == old(target.properties) + Properties(mapping, values, scored)
      && count == |Metrics(mapping, values, scored)| + |Properties(mapping, values, scored)|
    ensures target != null && DistinctNames(mapping) ==>
      count == |NamesIn(Metrics(mapping, values, scored))| + |NamesIn(Properties(mapping, values, scored))|
  {
    hide DistinctNames, NamesIn, RowMetrics, RowBands, BandName;
    if DistinctNames(mapping) {
      CountIsDistinctNames(mapping, values, scored);
    }
    if target == null {
      return 0;
    }
    count := ProjectRows(target, values, scored.perMetric, mapping);
    target.WithMetric(COMPOSITE_SCORE_ATTR, scored.score);
    target.WithProperty(COMPOSITE_BAND_ATTR, BandName(scored.band));
    count := count + 2;
    var worstCount := MetricsInWorstBand(scored.band, scored.perMetric);
    if worstCount.Some? {
      target.WithMetric(COMPOSITE_BAND_LEVEL_ATTR, BandLevel(scored.band).value as real);
      target.WithMetric(COMPOSITE_WORST_COUNT_ATTR, worstCount.value as real);
      count := count + 2;
    }
  }

  /** The loop over the projection table. */
  method ProjectRows<K(==)>(target: NativeObject, values: map<K, Option<real>>, perMetric: map<K, Band>, mapping: seq<Row<K>>)
    returns (count: nat)
    modifies target
    ensures target.metrics == old(target.metrics) + RowMetrics(mapping, values)
    ensures target.properties == old(target.properties) + RowBands(mapping, values, perMetric)
    ensures count == |RowMetrics(mapping, values)| + |RowBands(mapping, values, perMetric)|
  {
    hide BandOf, BandName, Row.MetricAttr, Row.BandAttr;
    count := 0;
    for i := 0 to |mapping|
      invariant target.metrics == old(target.metrics) + RowMetrics(mapping[..i], values)
      invariant target.properties == old(target.properties) + RowBands(mapping[..i], values, perMetric)
      invariant count == |RowMetrics(mapping[..i], values)| + |RowBands(mapping[..i], values, perMetric)|
    {
      var row := mapping[i];
      assert mapping[..i + 1][..i] == mapping[..i];
      if row.key in values {
        var value := values[row.key];
        if value.Some? {
          target.WithMetric(row.MetricAttr(), value.value);
          count := count + 1;
        }
        target.WithProperty(row.BandAttr(), BandName(BandOf(perMetric, row.key)));
        count := count + 1;
      }
    }
    assert mapping[..|mapping|] == mapping;
  }

  // ----- publishing agrees with scoring -----

  /** Attribute names of a table are distinct, and none is a composite attribute. */
  ghost predicate DistinctNames<K(!new)>(mapping: seq<Row<K>>) {
    && (forall i, j :: 0 <= i < j < |mapping| ==> mapping[i].MetricAttr() != mapping[j].MetricAttr())
    && (forall i :: 0 <= i < |mapping| ==>
          && mapping[i].MetricAttr() !in {COMPOSITE_SCORE_ATTR, COMPOSITE_BAND_LEVEL_ATTR, COMPOSITE_WORST_COUNT_ATTR}
          && mapping[i].BandAttr() != COMPOSITE_BAND_ATTR)
  }

  /** `scored` is the composite of `values` in `scope`. */
  ghost predicate ScoredFrom<K>(scored: Scored<K>, values: map<K, Option<real>>, scope: Scope<K>) {
    && scored.perMetric == Bands(values, scope)
    && scored.band == CompositeBand(values, scope)
    && scored.score == CompositeScore(values, scope)
  }

  ghost predicate Writes<V(!new)>(attributes: seq<(string, V)>, name: string) {
    exists i :: 0 <= i < |attributes| && attributes[i].0 == name
  }

  ghost predicate NoRepeats<V(!new)>(attributes: seq<(string, V)>) {
    forall i, j :: 0 <= i < j < |attributes| ==> attributes[i].0 != attributes[j].0
  }

  lemma WritesAppend<V(!new)>(a: seq<(string, V)>, b: seq<(string, V)>, name: string)
    ensures Writes(a + b, name) <==> Writes(a, name) || Writes(b, name)
  {
    if i :| 0 <= i < |a| && a[i].0 == name {
      assert (a + b)[i].0 == name;
    }
    if i :| 0 <= i < |b| && b[i].0 == name {
      assert (a + b)[|a| + i].0 == name;
    }
  }

  lemma NoRepeatsAppend<V(!new)>(a: seq<(string, V)>, name: string, value: V)
    requires NoRepeats(a) && !Writes(a, name)
    ensures NoRepeats(a + [(name, value)])
  {
  }

  /** The rows' metrics are exactly the known values under their own names, each name once. */
  lemma {:induction false} RowMetricsAre<K(!new)>(mapping: seq<Row<K>>, values: map<K, Option<real>>, name: string)
    ensures Writes(RowMetrics(mapping, values), name) <==>
      exists i :: 0 <= i < |mapping| && mapping[i].key in values && values[mapping[i].key].Some? && mapping[i].MetricAttr() == name
  {
    hide Row.MetricAttr;
    if mapping != [] {
      var n := |mapping| - 1;
      var init, row := mapping[..n], mapping[n];
      RowMetricsAre(init, values, name);
      var own := if row.key in values && values[row.key].Some? then [(row.MetricAttr(), values[row.key].value)] else [];
      WritesAppend(RowMetrics(init, values), own, name);
      if i :| 0 <= i < |init| && init[i].key in values && values[init[i].key].Some? && init[i].MetricAttr() == name {
        assert mapping[i] == init[i];
      }
      if own != [] {
        assert own[0].0 == row.MetricAttr();
      }
    }
  }

  lemma {:induction false} RowMetricsOnce<K(!new)>(mapping: seq<Row<K>>, values: map<K, Option<real>>)
    requires forall i, j :: 0 <= i < j < |mapping| ==> mapping[i].MetricAttr() != mapping[j].MetricAttr()
    ensures NoRepeats(RowMetrics(mapping, values))
  {
    hide Row.MetricAttr;
    if mapping != [] {
      var n := |mapping| - 1;
      var init, row := mapping[..n], mapping[n];
      RowMetricsOnce(init, values);
      RowMetricsAre(init, values, row.MetricAttr());
      if row.key in values && values[row.key].Some? {
        NoRepeatsAppend(RowMetrics(init, values), row.MetricAttr(), values[row.key].value);
      }
    }
  }

  lemma {:induction false} RowBandsAre<K(!new)>(mapping: seq<Row<K>>, values: map<K, Option<real>>, perMetric: map<K, Band>, name: string)
    ensures Writes(RowBands(mapping, values, perMetric), name) <==>
      exists i :: 0 <= i < |mapping| && mapping[i].key in values && mapping[i].BandAttr() == name
  {
    hide Row.BandAttr, BandOf, BandName;
    if mapping != [] {
      var n := |mapping| - 1;
      var init, row := mapping[..n], mapping[n];
      RowBandsAre(init, values, perMetric, name);
      var own := if row.key in values then [(row.BandAttr(), BandName(BandOf(perMetric, row.key)))] else [];
      WritesAppend(RowBands(init, values, perMetric), own, name);
      if i :| 0 <= i < |init| && init[i].key in values && init[i].BandAttr() == name {
        assert mapping[i] == init[i];
      }
      if own != [] {
        assert own[0].0 == row.BandAttr();
      }
    }
  }

  /** Where a row's value and its band are on the object. */
  lemma AttrNames<K>(row: Row<K>)
    ensures row.MetricAttr() == "Performance Risk|" + row.group + "|" + row.title
    ensures row.BandAttr() == "Performance Risk|" + row.group + "|" + row.title + " Band"
  {
    assert "Performance Risk" + "|" == "Performance Risk|";
  }

  lemma BandAttrInjective<K>(a: Row<K>, b: Row<K>)
    requires a.BandAttr() == b.BandAttr()
    ensures a.MetricAttr() == b.MetricAttr()
  {
    hide Row.MetricAttr;
    var x, y := a.MetricAttr(), b.MetricAttr();
    assert |x + " Band"| == |x| + 5 && |y + " Band"| == |y| + 5;
    assert x == (x + " Band")[..|x|] && y == (y + " Band")[..|y|];
  }

  lemma {:induction false} RowBandsOnce<K(!new)>(mapping: seq<Row<K>>, values: map<K, Option<real>>, perMetric: map<K, Band>)
    requires forall i, j :: 0 <= i < j < |mapping| ==> mapping[i].MetricAttr() != mapping[j].MetricAttr()
    ensures NoRepeats(RowBands(mapping, values, perMetric))
  {
    hide Row.BandAttr, Row.MetricAttr, BandOf, BandName;
    if mapping != [] {
      var n := |mapping| - 1;
      var init, row := mapping[..n], mapping[n];
      RowBandsOnce(init, values, perMetric);
      RowBandsAre(init, values, perMetric, row.BandAttr());
      if i :| 0 <= i < |init| && init[i].key in values && init[i].BandAttr() == row.BandAttr() {
        BandAttrInjective(init[i], row);
      }
      if row.key in values {
        NoRepeatsAppend(RowBands(init, values, perMetric), row.BandAttr(), BandName(BandOf(perMetric, row.key)));
      }
    }
  }

  /** The three composite metrics have three names. */
  lemma CompositeNames()
    ensures COMPOSITE_SCORE_ATTR != COMPOSITE_BAND_LEVEL_ATTR
    ensures COMPOSITE_BAND_LEVEL_ATTR != COMPOSITE_WORST_COUNT_ATTR
    ensures COMPOSITE_SCORE_ATTR != COMPOSITE_WORST_COUNT_ATTR
  {
    assert |COMPOSITE_SCORE_ATTR| == 37 && |COMPOSITE_BAND_LEVEL_ATTR| == 42 && |COMPOSITE_WORST_COUNT_ATTR| == 48;
  }

  /**
   For a table with distinct attribute names and bounded keys: a row's metric attribute is written
   exactly when its band is known, and no metric name is written twice.
   */
  lemma MetricsAgree<K(!new)>(mapping: seq<Row<K>>, values: map<K, Option<real>>, scored: Scored<K>, scope: Scope<K>)
    requires DistinctNames(mapping) && ScoredFrom(scored, values, scope)
    requires forall i :: 0 <= i < |mapping| ==> mapping[i].key in scope.bounds
    ensures forall i :: 0 <= i < |mapping| ==>
      (Writes(Metrics(mapping, values, scored), mapping[i].MetricAttr()) <==> BandOf(scored.perMetric, mapping[i].key) != Unknown)
    ensures NoRepeats(Metrics(mapping, values, scored))
  {
    hide Row.MetricAttr, Row.BandAttr, CompositeBand, CompositeScore, MetricsInWorstBand, BandLevel;
    var rows, extras := RowMetrics(mapping, values), CompositeExtras(scored);
    var score := [(COMPOSITE_SCORE_ATTR, scored.score)];
    CompositeNames();
    forall i | 0 <= i < |mapping|
      ensures Writes(Metrics(mapping, values, scored), mapping[i].MetricAttr()) <==> BandOf(scored.perMetric, mapping[i].key) != Unknown
    {
      var name := mapping[i].MetricAttr();
      RowMetricsAre(mapping, values, name);
      WritesAppend(rows + score, extras, name);
      WritesAppend(rows, score, name);
    }
    RowMetricsOnce(mapping, values);
    CompositesOnce(mapping, values, scored);
  }

  lemma CompositesOnce<K(!new)>(mapping: seq<Row<K>>, values: map<K, Option<real>>, scored: Scored<K>)
    requires DistinctNames(mapping) && NoRepeats(RowMetrics(mapping, values))
    ensures NoRepeats(Metrics(mapping, values, scored))
  {
    hide Row.MetricAttr, Row.BandAttr, MetricsInWorstBand, BandLevel;
    var rows, extras := RowMetrics(mapping, values), CompositeExtras(scored);
    CompositeNames();
    RowMetricsAre(mapping, values, COMPOSITE_SCORE_ATTR);
    RowMetricsAre(mapping, values, COMPOSITE_BAND_LEVEL_ATTR);
    RowMetricsAre(mapping, values, COMPOSITE_WORST_COUNT_ATTR);
    var first := rows + [(COMPOSITE_SCORE_ATTR, scored.score)];
    NoRepeatsAppend(rows, COMPOSITE_SCORE_ATTR, scored.score);
    if extras != [] {
      WritesAppend(rows, [(COMPOSITE_SCORE_ATTR, scored.score)], COMPOSITE_BAND_LEVEL_ATTR);
      NoRepeatsAppend(first, COMPOSITE_BAND_LEVEL_ATTR, extras[0].1);
      WritesAppend(rows, [(COMPOSITE_SCORE_ATTR, scored.score)], COMPOSITE_WORST_COUNT_ATTR);
      WritesAppend(first, [extras[0]], COMPOSITE_WORST_COUNT_ATTR);
      NoRepeatsAppend(first + [extras[0]], COMPOSITE_WORST_COUNT_ATTR, extras[1].1);
      assert first + extras == first + [extras[0]] + [extras[1]];
    }
  }

  /** A band property is written for every row whose key has an entry, and no property name is written twice. */
  lemma PropertiesAgree<K(!new)>(mapping: seq<Row<K>>, values: map<K, Option<real>>, scored: Scored<K>)
    requires DistinctNames(mapping)
    ensures forall i :: 0 <= i < |mapping| && mapping[i].key in values ==>
      Writes(Properties(mapping, values, scored), mapping[i].BandAttr())
    ensures NoRepeats(Properties(mapping, values, scored))
  {
    hide Row.MetricAttr, Row.BandAttr, BandOf, BandName;
    var rows := RowBands(mapping, values, scored.perMetric);
    forall i | 0 <= i < |mapping| && mapping[i].key in values
      ensures Writes(Properties(mapping, values, scored), mapping[i].BandAttr())
    {
      RowBandsAre(mapping, values, scored.perMetric, mapping[i].BandAttr());
      WritesAppend(rows, [(COMPOSITE_BAND_ATTR, BandName(scored.band))], mapping[i].BandAttr());
    }
    RowBandsOnce(mapping, values, scored.perMetric);
    RowBandsAre(mapping, values, scored.perMetric, COMPOSITE_BAND_ATTR);
    NoRepeatsAppend(rows, COMPOSITE_BAND_ATTR, BandName(scored.band));
  }

  lemma {:induction false} RowWrites<K(!new)>(mapping: seq<Row<K>>, values: map<K, Option<real>>, perMetric: map<K, Band>, i: nat)
    requires i < |mapping| && mapping[i].key in values
    ensures values[mapping[i].key].Some? ==> (mapping[i].MetricAttr(), values[mapping[i].key].value) in RowMetrics(mapping, values)
    ensures (mapping[i].BandAttr(), BandName(BandOf(perMetric, mapping[i].key))) in RowBands(mapping, values, perMetric)
  {
    hide Row.MetricAttr, Row.BandAttr, BandOf, BandName;
    var n := |mapping| - 1;
    if i < n {
      assert mapping[..n][i] == mapping[i];
      RowWrites(mapping[..n], values, perMetric, i);
    }
  }

  /**
   Every attribute carries its own value: a row's metric the value of the row's key, its band
   property that key's band, the composite attributes the composite. Names being distinct, no other value is there.
   */
  lemma ContentsAgree<K(!new)>(mapping: seq<Row<K>>, values: map<K, Option<real>>, scored: Scored<K>)
    ensures forall i :: 0 <= i < |mapping| && mapping[i].key in values && values[mapping[i].key].Some? ==>
      (mapping[i].MetricAttr(), values[mapping[i].key].value) in Metrics(mapping, values, scored)
    ensures forall i :: 0 <= i < |mapping| && mapping[i].key in values ==>
      (mapping[i].BandAttr(), BandName(BandOf(scored.perMetric, mapping[i].key))) in Properties(mapping, values, scored)
    ensures (COMPOSITE_SCORE_ATTR, scored.score) in Metrics(mapping, values, scored)
    ensures (COMPOSITE_BAND_ATTR, BandName(scored.band)) in Properties(mapping, values, scored)
  {
    hide Row.MetricAttr, Row.BandAttr, BandOf, BandName, CompositeExtras, RowMetrics, RowBands;
    forall i | 0 <= i < |mapping| && mapping[i].key in values
      ensures values[mapping[i].key].Some? ==>
        (mapping[i].MetricAttr(), values[mapping[i].key].value) in Metrics(mapping, values, scored)
      ensures (mapping[i].BandAttr(), BandName(BandOf(scored.perMetric, mapping[i].key))) in Properties(mapping, values, scored)
    {
      RowWrites(mapping, values, scored.perMetric, i);
    }
    ScoreThenExtras(mapping, values, scored);
  }

  lemma ScoreThenExtras<K(!new)>(mapping: seq<Row<K>>, values: map<K, Option<real>>, scored: Scored<K>)
    ensures (COMPOSITE_SCORE_ATTR, scored.score) in Metrics(mapping, values, scored)
    ensures (COMPOSITE_BAND_ATTR, BandName(scored.band)) in Properties(mapping, values, scored)
  {
    hide RowMetrics, RowBands, CompositeExtras, BandName;
    assert Metrics(mapping, values, scored)[|RowMetrics(mapping, values)|] == (COMPOSITE_SCORE_ATTR, scored.score);
    assert Properties(mapping, values, scored)[|RowBands(mapping, values, scored.perMetric)|] == (COMPOSITE_BAND_ATTR, BandName(scored.band));
  }

  /**
   Band level and worst-band count are published together, exactly when some metric is known; the
   count is then at least 1 and at most the number of known metrics.
   */
  lemma ExtrasAgree<K(!new)>(values: map<K, Option<real>>, scored: Scored<K>, scope: Scope<K>)
    requires ScoredFrom(scored, values, scope)
    ensures CompositeExtras(scored) == [] <==> forall k :: k in scored.perMetric ==> scored.perMetric[k] == Unknown
    ensures CompositeExtras(scored) != [] ==>
      var extras := CompositeExtras(scored);
      && |extras| == 2 && extras[0].0 == COMPOSITE_BAND_LEVEL_ATTR && extras[1].0 == COMPOSITE_WORST_COUNT_ATTR
      && extras[0].1 == (match scored.band case Green => 0.0 case Yellow => 1.0 case Orange => 2.0 case _ => 3.0)
      && 1.0 <= extras[1].1 <= |set k | k in scored.perMetric && scored.perMetric[k] != Unknown| as real
  {
    hide CompositeBand, CompositeScore;
    WorstCount(values, scope);
  }

  /** The distinct names among some attributes. */
  ghost function NamesIn<V>(attributes: seq<(string, V)>): set<string> {
    set i | 0 <= i < |attributes| :: attributes[i].0
  }

  lemma {:induction false} NamesCounted<V(!new)>(attributes: seq<(string, V)>)
    requires NoRepeats(attributes)
    ensures |NamesIn(attributes)| == |attributes|
  {
    if attributes != [] {
      var n := |attributes| - 1;
      var init := attributes[..n];
      NamesCounted(init);
      assert NamesIn(attributes) == NamesIn(init) + {attributes[n].0};
    }
  }

  /** With distinct names in the table, as many attributes are written as there are distinct names. */
  lemma CountIsDistinctNames<K(!new)>(mapping: seq<Row<K>>, values: map<K, Option<real>>, scored: Scored<K>)
    requires DistinctNames(mapping)
    ensures |Metrics(mapping, values, scored)| == |NamesIn(Metrics(mapping, values, scored))|
    ensures |Properties(mapping, values, scored)| == |NamesIn(Properties(mapping, values, scored))|
  {
    hide Row.MetricAttr, Row.BandAttr, Metrics, Properties, RowMetrics;
    RowMetricsOnce(mapping, values);
    CompositesOnce(mapping, values, scored);
    NamesCounted(Metrics(mapping, values, scored));
    PropertiesAgree(mapping, values, scored);
    NamesCounted(Properties(mapping, values, scored));
  }
}
