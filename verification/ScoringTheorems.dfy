/** What the composite score and band promise, for every scope and every set of metric values. */
module ScoringTheorems {
  import opened Common
  import opened Sums
  import opened Scoring

  // ----- arithmetic -----

  lemma RoundMonotone(x: real, y: real)
    requires x <= y
    ensures RoundTenths(x) <= RoundTenths(y)
  {
    assert (10.0 * x).Floor <= (10.0 * y).Floor;
  }

  lemma RatioBetween(sum: real, total: real, low: real, high: real)
    requires total > 0.0
    requires low * total <= sum <= high * total
    ensures low <= Ratio(sum, total) <= high
  {
    var r := sum / total;
    assert r * total == sum;
    if r < low {
      assert (low - r) * total > 0.0;
    }
    if r > high {
      assert (r - high) * total > 0.0;
    }
  }

  /** Mixing in a term at floor `f` moves a weighted average towards `f`. */
  lemma MixRatio(sum: real, total: real, f: real, weight: real)
    requires total > 0.0 && weight > 0.0
    ensures Ratio(sum + f * weight, total + weight) < Ratio(sum, total) <==> f < Ratio(sum, total)
    ensures Ratio(sum + f * weight, total + weight) > Ratio(sum, total) <==> f > Ratio(sum, total)
  {
    var a := sum / total;
    var r := (sum + f * weight) / (total + weight);
    assert a * total == sum;
    assert r * (total + weight) == a * total + f * weight;
    assert (r - a) * (total + weight) == (f - a) * weight;
    SameSign(r - a, total + weight, f - a, weight);
  }

  /** A first term sets the average. Before it, with no weight at all, the average is zero. */
  lemma RatioAlone(sum: real, f: real, weight: real)
    requires weight > 0.0 && f >= 0.0 && sum == 0.0
    ensures Ratio(sum + f * weight, weight) == f
  {
    var r := (f * weight) / weight;
    assert r * weight == f * weight;
  }

  lemma SameSign(x: real, p: real, y: real, q: real)
    requires p > 0.0 && q > 0.0 && x * p == y * q
    ensures x < 0.0 <==> y < 0.0
    ensures x > 0.0 <==> y > 0.0
  {
  }

  lemma FloorTimesIsProduct(band: Band, weight: real)
    ensures FloorTimes(band, weight) == BandFloor(band) * weight
  {
  }

  lemma RatioOrder(s: real, t: real, total: real)
    requires total > 0.0
    ensures Ratio(s, total) < Ratio(t, total) <==> s < t
  {
    var low, high := s / total, t / total;
    assert low * total == s && high * total == t;
    assert (high - low) * total == (t - s) * 1.0;
    SameSign(high - low, total, t - s, 1.0);
  }

  /** A positive sum over less weight is a larger average. */
  lemma RatioAntitone(sum: real, less: real, more: real)
    requires sum >= 0.0 && 0.0 < less <= more
    ensures Ratio(sum, more) <= Ratio(sum, less)
  {
    var r := sum / less;
    assert r * less == sum;
    assert r >= 0.0;
    assert r * (more - less) >= 0.0;
    RatioBetween(sum, more, 0.0, r);
  }

  // ----- the weighted average lies between zero and the worst floor -----

  lemma {:induction false} SumAtFloor<K>(terms: map<K, real>, weights: map<K, real>, worst: Band)
    requires terms.Keys == weights.Keys
    requires forall k :: k in weights ==> 0.0 <= terms[k] <= FloorTimes(worst, weights[k])
    ensures 0.0 <= SumOf(terms) <= FloorTimes(worst, SumOf(weights))
    decreases |terms|
  {
    if terms == map[] {
      assert weights == map[];
    } else {
      var k :| k in terms;
      assert k in weights;
      SumRemove(terms, k);
      SumRemove(weights, k);
      SumAtFloor(terms - {k}, weights - {k}, worst);
    }
  }

  lemma {:induction false} TotalsInRange<K>(values: map<K, Option<real>>, scope: Scope<K>)
    requires ValidScope(scope)
    ensures 0.0 <= SumOf(ScoreTerms(values, scope))
            <= FloorTimes(CompositeBand(values, scope), SumOf(WeightTerms(values, scope)))
    ensures SumOf(WeightTerms(values, scope)) >= 0.0
    ensures SumOf(WeightTerms(values, scope)) == 0.0 <==> WeightTerms(values, scope) == map[]
  {
    var worst := CompositeBand(values, scope);
    var terms, weights := ScoreTerms(values, scope), WeightTerms(values, scope);
    forall k | k in weights
      ensures 0.0 <= terms[k] <= FloorTimes(worst, weights[k])
    {
      var band := Bands(values, scope)[k];
      assert band in KnownBands(values, scope);
      assert BandFloor(band) <= BandFloor(worst);
    }
    SumAtFloor(terms, weights, worst);
    SumSign(weights);
  }

  lemma AverageInRange<K>(values: map<K, Option<real>>, scope: Scope<K>)
    requires ValidScope(scope)
    ensures 0.0 <= WeightedAverage(values, scope) <= BandFloor(CompositeBand(values, scope))
  {
    TotalsInRange(values, scope);
    var sum, total := SumOf(ScoreTerms(values, scope)), SumOf(WeightTerms(values, scope));
    if total != 0.0 {
      FloorTimesIsProduct(CompositeBand(values, scope), total);
      RatioBetween(sum, total, 0.0, BandFloor(CompositeBand(values, scope)));
    }
  }

  // ----- the band -----

  /** The composite band is a known band, and no known band is worse; none is known exactly when it is unknown. */
  lemma BandIsWorst<K>(values: map<K, Option<real>>, scope: Scope<K>)
    ensures CompositeBand(values, scope) == Unknown <==>
            forall k :: k in values && k in scope.bounds ==> values[k].None?
    ensures CompositeBand(values, scope) != Unknown ==>
            exists k :: k in Bands(values, scope) && Bands(values, scope)[k] == CompositeBand(values, scope)
    ensures forall k :: k in Bands(values, scope) ==>
            BandFloor(Bands(values, scope)[k]) <= BandFloor(CompositeBand(values, scope))
  {
    var bands, worst := Bands(values, scope), CompositeBand(values, scope);
    var known := KnownBands(values, scope);
    forall k | k in bands
      ensures bands[k] == Unknown <==> values[k].None?
      ensures bands[k] != Unknown ==> bands[k] in known && worst != Unknown
      ensures BandFloor(bands[k]) <= BandFloor(worst)
    {
      if bands[k] != Unknown {
        assert bands[k] in known;
      }
    }
    if worst != Unknown {
      assert worst in known;
      var k :| k in bands && bands[k] == worst;
      assert k in values && k in scope.bounds;
    }
    forall k | k in values && k in scope.bounds && worst == Unknown
      ensures values[k].None?
    {
      assert k in bands;
    }
  }

  // ----- score ranges -----

  /**
   The clamp never binds, the score is zero exactly when the band is green or unknown,
   and each band has its own score range, rounding included.
   */
  lemma ScoreRange<K>(values: map<K, Option<real>>, scope: Scope<K>)
    requires ValidScope(scope)
    ensures Clamp(RawScore(values, scope)) == RawScore(values, scope)
    ensures CompositeScore(values, scope) == 0.0 <==> CompositeBand(values, scope) in {Green, Unknown}
    ensures CompositeBand(values, scope) == Yellow ==> 42.0 <= CompositeScore(values, scope) <= 60.0
    ensures CompositeBand(values, scope) == Orange ==> 56.0 <= CompositeScore(values, scope) <= 80.0
    ensures CompositeBand(values, scope) == Red ==> 63.0 <= CompositeScore(values, scope) <= 90.0
  {
    AverageInRange(values, scope);
    var floor, average := BandFloor(CompositeBand(values, scope)), WeightedAverage(values, scope);
    Blend(floor, average);
  }

  /** The score lies between 70% of the worst floor and the worst floor. */
  lemma Blend(floor: real, average: real)
    requires floor in {0.0, 60.0, 80.0, 90.0} && 0.0 <= average <= floor
    ensures var raw := 0.7 * floor + 0.3 * average;
      && Clamp(raw) == raw
      && 0.7 * floor <= RoundTenths(raw) <= floor
  {
    var raw := 0.7 * floor + 0.3 * average;
    RoundMonotone(0.7 * floor, raw);
    RoundMonotone(raw, floor);
    assert RoundTenths(floor) == floor && RoundTenths(0.7 * floor) == 0.7 * floor;
  }

  /** r is n tenths and nearest to x; of two nearest ones it is the one with even n. */
  ghost predicate NearestTenth(x: real, r: real, n: int) {
    10.0 * r == n as real && -0.05 <= r - x <= 0.05 && (r - x == 0.05 || r - x == -0.05 ==> n % 2 == 0)
  }

  lemma RoundedToTenth(x: real)
    ensures exists n :: NearestTenth(x, RoundTenths(x), n)
  {
    assert NearestTenth(x, RoundTenths(x), RoundHalfEven(10.0 * x));
  }

  /** Whatever the scope, the score is between 0 and 100, and is the rounded one where that is in range. */
  lemma ScoreWithinHundred<K>(values: map<K, Option<real>>, scope: Scope<K>)
    ensures 0.0 <= CompositeScore(values, scope) <= 100.0
    ensures CompositeBand(values, scope) != Unknown && 0.0 <= RawScore(values, scope) <= 100.0 ==>
      CompositeScore(values, scope) == RoundTenths(RawScore(values, scope))
  {
    hide CompositeBand, RawScore, RoundTenths;
    var raw := RawScore(values, scope);
    WholeTenths();
    RoundMonotone(0.0, Clamp(raw));
    RoundMonotone(Clamp(raw), 100.0);
  }

  lemma WholeTenths()
    ensures RoundTenths(0.0) == 0.0 && RoundTenths(100.0) == 100.0
  {
  }

  /** A metric without a weight counts as one of weight 1. */
  lemma MissingWeightIsOne<K>(values: map<K, Option<real>>, key: K, scope: Scope<K>)
    requires key !in scope.weights
    ensures var weighted := scope.(weights := scope.weights[key := 1.0]);
      && CompositeScore(values, weighted) == CompositeScore(values, scope)
      && CompositeBand(values, weighted) == CompositeBand(values, scope)
  {
    hide ClassifyBand;
    var weighted := scope.(weights := scope.weights[key := 1.0]);
    assert Bands(values, weighted) == Bands(values, scope);
    assert ScoreTerms(values, weighted) == ScoreTerms(values, scope);
    assert WeightTerms(values, weighted) == WeightTerms(values, scope);
  }

  // ----- one metric changes -----

  /** Raising a value never moves it to a better band. */
  lemma ClassifyMonotone<K>(key: K, low: real, high: real, bounds: map<K, Bounds>)
    requires low <= high
    requires key in bounds ==> Ordered(bounds[key])
    ensures BandFloor(ClassifyBand(Some(low), key, bounds)) <= BandFloor(ClassifyBand(Some(high), key, bounds))
    ensures ClassifyBand(Some(high), key, bounds) == Green ==> ClassifyBand(Some(low), key, bounds) == Green
  {
  }

  /** The three quantities the composite is computed from. */
  datatype Tally = Tally(known: set<Band>, sum: real, total: real)

  ghost function TallyOf<K>(values: map<K, Option<real>>, scope: Scope<K>): Tally {
    Tally(KnownBands(values, scope), SumOf(ScoreTerms(values, scope)), SumOf(WeightTerms(values, scope)))
  }

  function RawOf(t: Tally): real {
    0.7 * BandFloor(WorstBand(t.known)) + 0.3 * Ratio(t.sum, t.total)
  }

  /** One more metric with band `band`, counted in the average or not. */
  function Joined(t: Tally, band: Band, weight: real, counts: bool): Tally {
    var known := if band == Unknown then t.known else t.known + {band};
    if counts then Tally(known, t.sum + FloorTimes(band, weight), t.total + weight)
    else Tally(known, t.sum, t.total)
  }

  /** A dictionary's tally is that of the other keys joined by one key's share. */
  lemma Decompose<K>(values: map<K, Option<real>>, key: K, scope: Scope<K>)
    requires key in values && key in scope.bounds
    ensures TallyOf(values, scope)
            == Joined(TallyOf(values - {key}, scope), ClassifyBand(values[key], key, scope.bounds),
                      scope.Weight(key), Counts(key, values[key], scope))
  {
    var rest := values - {key};
    assert values == rest[key := values[key]];
    AddTerms(rest, key, values[key], scope);
    KnownBandsAdd(rest, key, values[key], scope);
  }

  /** The same for a dictionary with one key changed: the other keys are untouched. */
  lemma DecomposeChanged<K>(values: map<K, Option<real>>, key: K, value: Option<real>, scope: Scope<K>)
    requires key in scope.bounds
    ensures TallyOf(values[key := value], scope)
            == Joined(TallyOf(values - {key}, scope), ClassifyBand(value, key, scope.bounds),
                      scope.Weight(key), Counts(key, value, scope))
  {
    Decompose(values[key := value], key, scope);
    assert values[key := value] - {key} == values - {key};
  }

  lemma KnownBandsAdd<K>(rest: map<K, Option<real>>, key: K, value: Option<real>, scope: Scope<K>)
    requires key !in rest && key in scope.bounds
    ensures var band := ClassifyBand(value, key, scope.bounds);
      KnownBands(rest[key := value], scope) == KnownBands(rest, scope) + (if band == Unknown then {} else {band})
  {
    var values := rest[key := value];
    var band := ClassifyBand(value, key, scope.bounds);
    var before, after := Bands(rest, scope), Bands(values, scope);
    assert after[key] == band;
    forall b | b in KnownBands(rest, scope) ensures b in KnownBands(values, scope) {
      var k :| k in before && before[k] == b && b != Unknown;
      assert after[k] == b;
    }
    forall b | b in KnownBands(values, scope) ensures b in KnownBands(rest, scope) || b == band {
      var k :| k in after && after[k] == b && b != Unknown;
      assert k != key ==> k in before && before[k] == b;
    }
  }

  lemma ScoreFromRaw<K>(values: map<K, Option<real>>, values': map<K, Option<real>>, scope: Scope<K>, scope': Scope<K>)
    requires ValidScope(scope) && ValidScope(scope')
    requires RawScore(values, scope) <= RawScore(values', scope')
    ensures CompositeScore(values, scope) <= CompositeScore(values', scope')
  {
    hide RoundTenths, RawScore, Clamp;
    RoundedRaw(values, scope);
    RoundedRaw(values', scope');
    RoundMonotone(RawScore(values, scope), RawScore(values', scope'));
  }

  /** The clamp never binds, and without a known metric the formula gives 0 by itself. */
  lemma RoundedRaw<K>(values: map<K, Option<real>>, scope: Scope<K>)
    requires ValidScope(scope)
    ensures CompositeScore(values, scope) == RoundTenths(RawScore(values, scope))
  {
    hide WeightedAverage, KnownBands;
    AverageInRange(values, scope);
  }

  /** Whether a key of a dictionary takes part in the weighted average, and the floor it has there. */
  predicate CountsIn<K>(values: map<K, Option<real>>, key: K, scope: Scope<K>) {
    key in values && Counts(key, values[key], scope)
  }

  function FloorIn<K>(values: map<K, Option<real>>, key: K, scope: Scope<K>): real
    requires key in values
  {
    BandFloor(ClassifyBand(values[key], key, scope.bounds))
  }

  /**
   Which way one changed or added key moves the score: by the two floors while the key counts before and
   after, by its floor against the average of the others when it starts or stops to count.
   */
  ghost function Drift<K>(values: map<K, Option<real>>, key: K, value: Option<real>, scope: Scope<K>): real {
    var changed := values[key := value];
    if CountsIn(values, key, scope) && CountsIn(changed, key, scope) then FloorIn(changed, key, scope) - FloorIn(values, key, scope)
    else if CountsIn(changed, key, scope) then FloorIn(changed, key, scope) - WeightedAverage(values, scope)
    else if CountsIn(values, key, scope) then WeightedAverage(changed, scope) - FloorIn(values, key, scope)
    else 0.0
  }

  /**
   Every change of one key. The unrounded score falls, or rises, exactly as the drift says; the
   rounded one moves in no other direction; the band is the worse of the key's own and the others'.
   */
  lemma OneKeyChange<K>(values: map<K, Option<real>>, key: K, value: Option<real>, scope: Scope<K>)
    requires ValidScope(scope)
    ensures RawScore(values[key := value], scope) < RawScore(values, scope) <==> Drift(values, key, value, scope) < 0.0
    ensures RawScore(values[key := value], scope) > RawScore(values, scope) <==> Drift(values, key, value, scope) > 0.0
    ensures Drift(values, key, value, scope) >= 0.0 ==>
      CompositeScore(values, scope) <= CompositeScore(values[key := value], scope)
    ensures Drift(values, key, value, scope) <= 0.0 ==>
      CompositeScore(values[key := value], scope) <= CompositeScore(values, scope)
    ensures BandFloor(CompositeBand(values[key := value], scope))
            == MaxReal(BandFloor(CompositeBand(values - {key}, scope)), BandFloor(ClassifyBand(value, key, scope.bounds)))
  {
    hide KnownBands, ScoreTerms, WeightTerms, WorstBand, Ratio, SumOf, ValidScope, CompositeScore, Joined;
    var changed := values[key := value];
    if key !in scope.bounds {
      UnboundedRaw(values, key, value, scope);
    } else {
      var was := if key in values then values[key] else None;
      var rest := TallyOf(values - {key}, scope);
      KeyJoined(values, key, scope);
      KeyJoined(changed, key, scope);
      assert changed - {key} == values - {key};
      AverageInRange(values - {key}, scope);
      TotalsInRange(values - {key}, scope);
      WeightPositive(key, scope);
      TwoJoins(rest, ClassifyBand(was, key, scope.bounds), Counts(key, was, scope),
               ClassifyBand(value, key, scope.bounds), Counts(key, value, scope), scope.Weight(key));
    }
    if RawScore(values, scope) <= RawScore(changed, scope) {
      ScoreFromRaw(values, changed, scope, scope);
    }
    if RawScore(changed, scope) <= RawScore(values, scope) {
      ScoreFromRaw(changed, values, scope, scope);
    }
  }

  /** A dictionary's tally is that of its other keys joined by one key's share, nothing for an absent key. */
  lemma KeyJoined<K>(values: map<K, Option<real>>, key: K, scope: Scope<K>)
    requires key in scope.bounds
    ensures var value := if key in values then values[key] else None;
      TallyOf(values, scope) == Joined(TallyOf(values - {key}, scope), ClassifyBand(value, key, scope.bounds),
                                       scope.Weight(key), Counts(key, value, scope))
  {
    hide KnownBands, ScoreTerms, WeightTerms, SumOf;
    if key in values {
      Decompose(values, key, scope);
    } else {
      assert values - {key} == values;
    }
  }

  /** Two shares of one key joined to the same tally: which of the two raw scores is larger. */
  lemma TwoJoins(t: Tally, b0: Band, c0: bool, b1: Band, c1: bool, weight: real)
    requires weight > 0.0 && t.total >= 0.0 && (t.total == 0.0 ==> t.sum == 0.0)
    requires Ratio(t.sum, t.total) <= BandFloor(WorstBand(t.known))
    requires (c0 ==> b0 != Unknown) && (!c0 ==> BandFloor(b0) == 0.0) && (c1 ==> b1 != Unknown) && (!c1 ==> BandFloor(b1) == 0.0)
    ensures var before, after := Joined(t, b0, weight, c0), Joined(t, b1, weight, c1);
      var drift := if c0 && c1 then BandFloor(b1) - BandFloor(b0)
                   else if c1 then BandFloor(b1) - Ratio(before.sum, before.total)
                   else if c0 then Ratio(after.sum, after.total) - BandFloor(b0)
                   else 0.0;
      && (RawOf(after) < RawOf(before) <==> drift < 0.0)
      && (RawOf(after) > RawOf(before) <==> drift > 0.0)
    ensures BandFloor(WorstBand(Joined(t, b1, weight, c1).known)) == MaxReal(BandFloor(WorstBand(t.known)), BandFloor(b1))
  {
    hide Ratio;
    WorstJoined(t.known, b0);
    WorstJoined(t.known, b1);
    FloorTimesIsProduct(b0, weight);
    FloorTimesIsProduct(b1, weight);
    hide WorstBand, FloorTimes;
    if c0 && c1 {
      ProductOrder(BandFloor(b0), BandFloor(b1), weight);
      RatioOrder(t.sum + BandFloor(b0) * weight, t.sum + BandFloor(b1) * weight, t.total + weight);
      RatioOrder(t.sum + BandFloor(b1) * weight, t.sum + BandFloor(b0) * weight, t.total + weight);
    } else if c0 {
      JoinOne(t, BandFloor(b0), weight);
    } else if c1 {
      JoinOne(t, BandFloor(b1), weight);
    }
  }

  lemma ProductOrder(a: real, b: real, weight: real)
    requires weight > 0.0
    ensures a * weight < b * weight <==> a < b
    ensures a * weight > b * weight <==> a > b
  {
    SameSign(b - a, weight, (b - a) * weight, 1.0);
    assert (b - a) * weight == b * weight - a * weight;
  }

  /** Joining one share moves the average towards its floor; from no weight at all, to its floor. */
  lemma JoinOne(t: Tally, f: real, weight: real)
    requires weight > 0.0 && t.total >= 0.0 && (t.total == 0.0 ==> t.sum == 0.0) && f >= 0.0
    ensures var average, joined := Ratio(t.sum, t.total), Ratio(t.sum + f * weight, t.total + weight);
      (joined < average <==> f < average) && (joined > average <==> f > average)
  {
    if t.total > 0.0 {
      MixRatio(t.sum, t.total, f, weight);
    } else {
      RatioAlone(t.sum, f, weight);
    }
  }

  lemma WorstJoined(known: set<Band>, band: Band)
    ensures BandFloor(WorstBand(if band == Unknown then known else known + {band}))
            == MaxReal(BandFloor(WorstBand(known)), BandFloor(band))
  {
  }

  lemma UnboundedRaw<K>(values: map<K, Option<real>>, key: K, value: Option<real>, scope: Scope<K>)
    requires key !in scope.bounds
    ensures RawScore(values[key := value], scope) == RawScore(values, scope)
    ensures CompositeBand(values[key := value], scope) == CompositeBand(values - {key}, scope)
    ensures ClassifyBand(value, key, scope.bounds) == Unknown
    ensures !CountsIn(values, key, scope) && !CountsIn(values[key := value], key, scope)
  {
    var changed, rest := values[key := value], values - {key};
    assert Bands(changed, scope) == Bands(values, scope) == Bands(rest, scope);
    assert ScoreTerms(changed, scope) == ScoreTerms(values, scope);
    assert WeightTerms(changed, scope) == WeightTerms(values, scope);
  }

  /**
   Raising a known metric's value never lowers the score and never improves the band,
   provided its key is not excluded when green or the metric has already left green.
   */
  lemma RaiseMetric<K>(values: map<K, Option<real>>, key: K, high: real, scope: Scope<K>)
    requires ValidScope(scope)
    requires key in values && values[key].Some? && values[key].value <= high
    requires key !in scope.excludedWhenGreen || ClassifyBand(values[key], key, scope.bounds) != Green
    ensures CompositeScore(values, scope) <= CompositeScore(values[key := Some(high)], scope)
    ensures BandFloor(CompositeBand(values, scope)) <= BandFloor(CompositeBand(values[key := Some(high)], scope))
  {
    hide CompositeBand, CompositeScore, RawScore, WeightedAverage;
    ClassifyMonotone(key, values[key].value, high, scope.bounds);
    OneKeyChange(values, key, Some(high), scope);
    OneKeyChange(values, key, values[key], scope);
    assert values[key := values[key]] == values;
  }

  lemma UnboundedKeyIgnored<K>(values: map<K, Option<real>>, key: K, value: Option<real>, scope: Scope<K>)
    requires key !in scope.bounds
    ensures CompositeScore(values[key := value], scope) == CompositeScore(values, scope)
    ensures CompositeBand(values[key := value], scope) == CompositeBand(values, scope)
  {
    hide ClassifyBand;
    var changed := values[key := value];
    assert Bands(changed, scope) == Bands(values, scope);
    assert ScoreTerms(changed, scope) == ScoreTerms(values, scope);
    assert WeightTerms(changed, scope) == WeightTerms(values, scope);
  }

  /**
   The exception, exactly: when an excluded green metric enters a band with floor f, the
   unrounded score falls if and only if the old weighted average exceeds f. The band never improves.
   */
  lemma LeaveGreen<K>(values: map<K, Option<real>>, key: K, high: real, scope: Scope<K>)
    requires ValidScope(scope)
    requires key in values && key in scope.excludedWhenGreen
    requires ClassifyBand(values[key], key, scope.bounds) == Green
    requires ClassifyBand(Some(high), key, scope.bounds) != Green
    ensures RawScore(values[key := Some(high)], scope) < RawScore(values, scope)
            <==> WeightedAverage(values, scope) > BandFloor(ClassifyBand(Some(high), key, scope.bounds))
    ensures BandFloor(CompositeBand(values, scope)) <= BandFloor(CompositeBand(values[key := Some(high)], scope))
  {
    hide ClassifyBand, CompositeBand, CompositeScore, RawScore, WeightedAverage;
    KnownWhenNotGreen(values[key], high, key, scope.bounds);
    OneKeyChange(values, key, Some(high), scope);
    OneKeyChange(values, key, values[key], scope);
    assert values[key := values[key]] == values;
  }

  lemma WeightPositive<K>(key: K, scope: Scope<K>)
    requires ValidScope(scope)
    ensures scope.Weight(key) > 0.0
  {
  }

  lemma KnownWhenNotGreen<K>(value: Option<real>, high: real, key: K, bounds: map<K, Bounds>)
    requires ClassifyBand(value, key, bounds) == Green
    ensures key in bounds && ClassifyBand(Some(high), key, bounds) != Unknown
  {
  }

  /**
   An unknown metric that becomes known and counts, whatever its band, lowers the unrounded score
   exactly when the old weighted average exceeds its floor, and never improves the band.
   */
  lemma UnknownBecomesKnown<K>(values: map<K, Option<real>>, key: K, value: real, scope: Scope<K>)
    requires ValidScope(scope)
    requires key in values && values[key].None? && Counts(key, Some(value), scope)
    ensures RawScore(values[key := Some(value)], scope) < RawScore(values, scope)
            <==> WeightedAverage(values, scope) > BandFloor(ClassifyBand(Some(value), key, scope.bounds))
    ensures BandFloor(CompositeBand(values, scope)) <= BandFloor(CompositeBand(values[key := Some(value)], scope))
  {
    hide CompositeBand, CompositeScore, RawScore, WeightedAverage;
    OneKeyChange(values, key, Some(value), scope);
    OneKeyChange(values, key, values[key], scope);
    assert values[key := values[key]] == values;
  }

  /** The weighted average is positive exactly when some band is worse than green. */
  lemma PositiveAverage<K>(values: map<K, Option<real>>, scope: Scope<K>)
    requires ValidScope(scope)
    ensures WeightedAverage(values, scope) >= 0.0
    ensures WeightedAverage(values, scope) > 0.0 <==> CompositeBand(values, scope) !in {Green, Unknown}
  {
    hide ScoreTerms, WeightTerms, SumOf, ValidScope;
    AverageInRange(values, scope);
    var worst := CompositeBand(values, scope);
    if worst !in {Green, Unknown} {
      var k :| k in Bands(values, scope) && Bands(values, scope)[k] == worst;
      Decompose(values, k, scope);
      TotalsInRange(values - {k}, scope);
      WeightPositive(k, scope);
      var sum, total := SumOf(ScoreTerms(values, scope)), SumOf(WeightTerms(values, scope));
      FloorTimesIsProduct(worst, scope.Weight(k));
      assert sum > 0.0 && total > 0.0;
      PositiveRatio(sum, total);
    }
  }

  lemma PositiveRatio(sum: real, total: real)
    requires sum > 0.0 && total > 0.0
    ensures Ratio(sum, total) > 0.0
  {
  }

  /**
   An unknown metric that becomes plain green never raises the score, lowers the unrounded one exactly
   when some band is worse than green, and leaves a known band as it was.
   */
  lemma UnknownBecomesGreen<K>(values: map<K, Option<real>>, key: K, value: real, scope: Scope<K>)
    requires ValidScope(scope)
    requires key in values && values[key].None? && key !in scope.excludedWhenGreen
    requires ClassifyBand(Some(value), key, scope.bounds) == Green
    ensures CompositeScore(values[key := Some(value)], scope) <= CompositeScore(values, scope)
    ensures RawScore(values[key := Some(value)], scope) < RawScore(values, scope)
            <==> CompositeBand(values, scope) !in {Green, Unknown}
    ensures CompositeBand(values, scope) != Unknown ==>
            CompositeBand(values[key := Some(value)], scope) == CompositeBand(values, scope)
  {
    hide CompositeScore, RawScore, KnownBands, ScoreTerms, WeightTerms, Ratio, SumOf;
    OneKeyChange(values, key, Some(value), scope);
    PositiveAverage(values, scope);
    Decompose(values, key, scope);
    DecomposeChanged(values, key, Some(value), scope);
  }

  /** A green excluded metric is the same as no metric, as long as another one is known. */
  lemma GreenExcludedAsDeleted<K>(values: map<K, Option<real>>, key: K, scope: Scope<K>)
    requires key in values && key in scope.excludedWhenGreen
    requires ClassifyBand(values[key], key, scope.bounds) == Green
    requires CompositeBand(values - {key}, scope) != Unknown
    ensures CompositeScore(values, scope) == CompositeScore(values - {key}, scope)
    ensures CompositeBand(values, scope) == CompositeBand(values - {key}, scope)
  {
    hide ClassifyBand, KnownBands, ScoreTerms, WeightTerms, Ratio, SumOf, RoundTenths, Clamp;
    KnownWhenNotGreen(values[key], 0.0, key, scope.bounds);
    Decompose(values, key, scope);
    var rest := TallyOf(values - {key}, scope);
    assert TallyOf(values, scope) == Joined(rest, Green, scope.Weight(key), false);
    assert WorstBand(rest.known + {Green}) == WorstBand(rest.known);
    assert RawOf(TallyOf(values, scope)) == RawOf(rest);
  }

  /** Band levels are 0 to 3 and rank the known bands as their floors do; only an unknown band has none. */
  lemma LevelsFollowFloors(a: Band, b: Band)
    ensures BandLevel(a).None? <==> a == Unknown
    ensures a != Unknown ==> BandLevel(a).value <= 3
    ensures a != Unknown && b != Unknown ==> (BandLevel(a).value < BandLevel(b).value <==> BandFloor(a) < BandFloor(b))
  {
  }

  // ----- several metrics at once -----

  /** Deleting keys without bounds or without a value changes neither score nor band. */
  lemma DeleteUnknown<K>(values: map<K, Option<real>>, deleted: set<K>, scope: Scope<K>)
    requires forall k :: k in deleted && k in values ==> k !in scope.bounds || values[k].None?
    ensures CompositeScore(values - deleted, scope) == CompositeScore(values, scope)
    ensures CompositeBand(values - deleted, scope) == CompositeBand(values, scope)
  {
    var kept := values - deleted;
    var all, some := Bands(values, scope), Bands(kept, scope);
    forall b | b in KnownBands(values, scope) ensures b in KnownBands(kept, scope) {
      var k :| k in all && all[k] == b && b != Unknown;
      assert k in some && some[k] == b;
    }
    forall b | b in KnownBands(kept, scope) ensures b in KnownBands(values, scope) {
      var k :| k in some && some[k] == b && b != Unknown;
      assert k in all && all[k] == b;
    }
    assert KnownBands(kept, scope) == KnownBands(values, scope);
    assert ScoreTerms(kept, scope) == ScoreTerms(values, scope);
    assert WeightTerms(kept, scope) == WeightTerms(values, scope);
  }

  /** Excluding more keys when green keeps the band and never lowers the score. */
  lemma ExcludeMore<K>(values: map<K, Option<real>>, scope: Scope<K>, more: set<K>)
    requires ValidScope(scope) && scope.excludedWhenGreen <= more
    ensures CompositeBand(values, scope.(excludedWhenGreen := more)) == CompositeBand(values, scope)
    ensures CompositeScore(values, scope) <= CompositeScore(values, scope.(excludedWhenGreen := more))
  {
    var wider := scope.(excludedWhenGreen := more);
    assert Bands(values, wider) == Bands(values, scope);
    ExcludedSums(values, scope, more);
    TotalsInRange(values, scope);
    TotalsInRange(values, wider);
    var sum := SumOf(ScoreTerms(values, scope));
    var less, total := SumOf(WeightTerms(values, wider)), SumOf(WeightTerms(values, scope));
    if less > 0.0 {
      RatioAntitone(sum, less, total);
    } else {
      FloorTimesIsProduct(CompositeBand(values, wider), less);
      assert sum == 0.0;
      assert Ratio(0.0, total) == 0.0;
    }
    ScoreFromRaw(values, values, scope, wider);
  }

  /** The counted metrics that a larger set of excluded keys leaves out. */
  ghost function LeftOut<K>(values: map<K, Option<real>>, scope: Scope<K>, wider: Scope<K>): set<K> {
    set k | k in values && Counts(k, values[k], scope) && !Counts(k, values[k], wider)
  }

  lemma ExcludedTerms<K>(values: map<K, Option<real>>, scope: Scope<K>, more: set<K>)
    requires ValidScope(scope) && scope.excludedWhenGreen <= more
    ensures var wider := scope.(excludedWhenGreen := more);
      var out := LeftOut(values, scope, wider);
      && ScoreTerms(values, wider) == ScoreTerms(values, scope) - out
      && WeightTerms(values, wider) == WeightTerms(values, scope) - out
      && (forall k :: k in ScoreTerms(values, scope) && k in out ==> ScoreTerms(values, scope)[k] == 0.0)
      && (forall k :: k in WeightTerms(values, scope) ==> WeightTerms(values, scope)[k] >= 0.0)
  {
  }

  lemma ExcludedSums<K>(values: map<K, Option<real>>, scope: Scope<K>, more: set<K>)
    requires ValidScope(scope) && scope.excludedWhenGreen <= more
    ensures var wider := scope.(excludedWhenGreen := more);
      && SumOf(ScoreTerms(values, wider)) == SumOf(ScoreTerms(values, scope))
      && SumOf(WeightTerms(values, wider)) <= SumOf(WeightTerms(values, scope))
  {
    hide SumOf, ScoreTerms, WeightTerms, LeftOut, ValidScope;
    var out := LeftOut(values, scope, scope.(excludedWhenGreen := more));
    var scores, weights := ScoreTerms(values, scope), WeightTerms(values, scope);
    ExcludedTerms(values, scope, more);
    SumSplit(scores, out);
    SumSplit(weights, out);
    SumSign(map k | k in scores && k in out :: scores[k]);
    SumSign(map k | k in weights && k in out :: weights[k]);
  }

  // ----- one red metric, and one that starts to count -----

  /**
   With one red metric and nothing else that counts, the score is 90; when another metric of the same
   weight starts to count as yellow, it is 85.5.
   */
  lemma FallFrom90<K>(values: map<K, Option<real>>, red: K, other: K, value: real, scope: Scope<K>)
    requires ValidScope(scope) && red in values && other in values && red != other
    requires scope.Weight(red) == 1.0 == scope.Weight(other)
    requires ClassifyBand(values[red], red, scope.bounds) == Red
    requires forall k :: k in values && k != red ==> !Counts(k, values[k], scope)
    requires ClassifyBand(Some(value), other, scope.bounds) == Yellow
    ensures CompositeScore(values, scope) == 90.0
    ensures CompositeScore(values[other := Some(value)], scope) == 85.5
  {
    hide KnownBands, SumOf, Ratio;
    var changed := values[other := Some(value)];
    OnlyTerm(values, red, scope);
    assert CompositeBand(values, scope) == Red == CompositeBand(changed, scope) by {
      RedBand(values, red, scope);
      RedBand(changed, red, scope);
    }
    Decompose(values, other, scope);
    DecomposeChanged(values, other, Some(value), scope);
    Averages();
  }

  lemma Averages()
    ensures Ratio(90.0, 1.0) == 90.0 && Ratio(150.0, 2.0) == 75.0
    ensures RoundTenths(90.0) == 90.0 && RoundTenths(85.5) == 85.5
  {
  }

  lemma RedBand<K>(values: map<K, Option<real>>, red: K, scope: Scope<K>)
    requires red in values && ClassifyBand(values[red], red, scope.bounds) == Red
    ensures CompositeBand(values, scope) == Red
  {
    assert Bands(values, scope)[red] == Red;
    assert Red in KnownBands(values, scope);
  }

  /** A single metric that counts makes up the two sums. */
  lemma OnlyTerm<K>(values: map<K, Option<real>>, key: K, scope: Scope<K>)
    requires key in values && Counts(key, values[key], scope)
    requires forall k :: k in values && k != key ==> !Counts(k, values[k], scope)
    ensures SumOf(ScoreTerms(values, scope)) == ScoreTerm(key, values[key], scope)
    ensures SumOf(WeightTerms(values, scope)) == scope.Weight(key)
  {
    var rest := values - {key};
    assert values == rest[key := values[key]];
    AddTerms(rest, key, values[key], scope);
    assert ScoreTerms(rest, scope) == map[] == WeightTerms(rest, scope);
  }

  // ----- how many metrics share the worst band -----

  /** The count exists exactly when some metric is known; it is then at least 1 and at most the number of known metrics. */
  lemma WorstCount<K>(values: map<K, Option<real>>, scope: Scope<K>)
    ensures var bands := Bands(values, scope);
      var count := MetricsInWorstBand(CompositeBand(values, scope), bands);
      && (count.Some? <==> exists k :: k in bands && bands[k] != Unknown)
      && (count.Some? ==> 1 <= count.value <= |set k | k in bands && bands[k] != Unknown|)
  {
    var bands, worst := Bands(values, scope), CompositeBand(values, scope);
    var known := set k | k in bands && bands[k] != Unknown;
    var inWorst := set k | k in bands && bands[k] == worst;
    BandIsWorst(values, scope);
    if worst != Unknown {
      var k :| k in bands && bands[k] == worst;
      assert inWorst >= {k};
      CardinalityMonotone({k}, inWorst);
      CardinalityMonotone(inWorst, known);
    } else {
      forall k | k in bands ensures bands[k] == Unknown {
      }
    }
  }

  lemma {:induction false} CardinalityMonotone<K>(small: set<K>, large: set<K>)
    requires small <= large
    ensures |small| <= |large|
  {
    assert large == small + (large - small);
  }
}
