/**
 The composite risk score and band of one object, cluster or host
 (app/scoring.py): bands by threshold, a weighted average of band floors, and
 the worst band.
 */
module Scoring {
  import opened Common
  import opened Sums

  datatype Band = Green | Yellow | Orange | Red | Unknown

  /** Anything above `orangeMax` is red. */
  datatype Bounds = Bounds(greenMax: real, yellowMax: real, orangeMax: real)

  /** The threshold table, weights and excluded-when-green keys of one object type. */
  datatype Scope<K> = Scope(bounds: map<K, Bounds>, weights: map<K, real>, excludedWhenGreen: set<K>) {

    /** The default weight is 1. */
    function Weight(key: K): real {
      if key in weights then weights[key] else 1.0
    }
  }

  predicate Ordered(b: Bounds) {
    b.greenMax <= b.yellowMax <= b.orangeMax
  }

  ghost predicate ValidScope<K>(scope: Scope<K>) {
    && (forall k :: k in scope.weights ==> scope.weights[k] > 0.0)
    && (forall k :: k in scope.bounds ==> Ordered(scope.bounds[k]))
  }

  function BandFloor(band: Band): real {
    match band
    case Green => 0.0
    case Yellow => 60.0
    case Orange => 80.0
    case Red => 90.0
    case Unknown => 0.0
  }

  /** The band's floor times a weight, written band by band. */
  function FloorTimes(band: Band, weight: real): real {
    match band
    case Green => 0.0
    case Yellow => 60.0 * weight
    case Orange => 80.0 * weight
    case Red => 90.0 * weight
    case Unknown => 0.0
  }

  /** The band as a number for dashboards; an unknown band has none. */
  function BandLevel(band: Band): Option<nat> {
    match band
    case Green => Some(0)
    case Yellow => Some(1)
    case Orange => Some(2)
    case Red => Some(3)
    case Unknown => None
  }

  function ClassifyBand<K>(value: Option<real>, key: K, bounds: map<K, Bounds>): Band {
    if value.None? || key !in bounds then Unknown
    else if value.value <= bounds[key].greenMax then Green
    else if value.value <= bounds[key].yellowMax then Yellow
    else if value.value <= bounds[key].orangeMax then Orange
    else Red
  }

  /** Python's `round` to an integer: halves go to the even neighbour. */
  function RoundHalfEven(x: real): int {
    var low := x.Floor;
    var part := x - low as real;
    if part < 0.5 then low
    else if part > 0.5 then low + 1
    else if low % 2 == 0 then low else low + 1
  }

  /** Python's `round(x, 1)`, on exact numbers. */
  function RoundTenths(x: real): real {
    RoundHalfEven(10.0 * x) as real / 10.0
  }

  // ----- what the composite means, as a function of the key-to-value map alone -----

  function Bands<K>(values: map<K, Option<real>>, scope: Scope<K>): map<K, Band> {
    map k | k in values && k in scope.bounds :: ClassifyBand(values[k], k, scope.bounds)
  }

  function KnownBands<K>(values: map<K, Option<real>>, scope: Scope<K>): set<Band> {
    set k | k in Bands(values, scope) && Bands(values, scope)[k] != Unknown :: Bands(values, scope)[k]
  }

  /** The band with the highest floor; unknown when no band is known. */
  function WorstBand(known: set<Band>): Band {
    if Red in known then Red
    else if Orange in known then Orange
    else if Yellow in known then Yellow
    else if Green in known then Green
    else Unknown
  }

  /** A metric takes part in the weighted average when its band is known and informative. */
  predicate Counts<K(==)>(key: K, value: Option<real>, scope: Scope<K>) {
    && key in scope.bounds
    && var band := ClassifyBand(value, key, scope.bounds);
       band != Unknown && !(band == Green && key in scope.excludedWhenGreen)
  }

  /** What one metric adds to the weighted sum of band floors. */
  function ScoreTerm<K(==)>(key: K, value: Option<real>, scope: Scope<K>): real {
    FloorTimes(ClassifyBand(value, key, scope.bounds), scope.Weight(key))
  }

  ghost function WeightTerms<K>(values: map<K, Option<real>>, scope: Scope<K>): map<K, real> {
    map k | k in values && Counts(k, values[k], scope) :: scope.Weight(k)
  }

  ghost function ScoreTerms<K>(values: map<K, Option<real>>, scope: Scope<K>): map<K, real> {
    map k | k in values && Counts(k, values[k], scope) :: ScoreTerm(k, values[k], scope)
  }

  ghost function WeightedAverage<K>(values: map<K, Option<real>>, scope: Scope<K>): real {
    Ratio(SumOf(ScoreTerms(values, scope)), SumOf(WeightTerms(values, scope)))
  }

  /** `sum / total if total else 0`. */
  function Ratio(sum: real, total: real): real {
    if total != 0.0 then sum / total else 0.0
  }

  ghost function CompositeBand<K>(values: map<K, Option<real>>, scope: Scope<K>): Band {
    WorstBand(KnownBands(values, scope))
  }

  /** The score before clamping and rounding. */
  ghost function RawScore<K>(values: map<K, Option<real>>, scope: Scope<K>): real {
    0.7 * BandFloor(CompositeBand(values, scope)) + 0.3 * WeightedAverage(values, scope)
  }

  function Clamp(x: real): real {
    MinReal(100.0, MaxReal(0.0, x))
  }

  ghost function CompositeScore<K>(values: map<K, Option<real>>, scope: Scope<K>): real {
    if CompositeBand(values, scope) == Unknown then 0.0 else RoundTenths(Clamp(RawScore(values, scope)))
  }

  datatype Scored<K> = Scored(score: real, band: Band, perMetric: map<K, Band>)

  /** `order` is an order in which a dictionary with these keys may be iterated. */
  predicate Enumerates<K(==)>(order: seq<K>, keys: set<K>) {
    && (forall i :: 0 <= i < |order| ==> order[i] in keys)
    && (forall k :: k in keys ==> k in order)
    && (forall i, j :: 0 <= i < j < |order| ==> order[i] != order[j])
  }

  /** What one more key adds to the weighted sum and to the total weight. */
  lemma AddTerms<K>(values: map<K, Option<real>>, key: K, value: Option<real>, scope: Scope<K>)
    requires key !in values
    ensures SumOf(ScoreTerms(values[key := value], scope)) == SumOf(ScoreTerms(values, scope))
              + (if Counts(key, value, scope) then ScoreTerm(key, value, scope) else 0.0)
    ensures SumOf(WeightTerms(values[key := value], scope)) == SumOf(WeightTerms(values, scope))
              + (if Counts(key, value, scope) then scope.Weight(key) else 0.0)
  {
    var next := values[key := value];
    var scores, weights := ScoreTerms(values, scope), WeightTerms(values, scope);
    if Counts(key, value, scope) {
      assert ScoreTerms(next, scope) == scores[key := ScoreTerm(key, value, scope)];
      assert WeightTerms(next, scope) == weights[key := scope.Weight(key)];
      SumInsert(scores, key, ScoreTerm(key, value, scope));
      SumInsert(weights, key, scope.Weight(key));
    } else {
      assert ScoreTerms(next, scope) == scores;
      assert WeightTerms(next, scope) == weights;
    }
  }

  /** What one more key adds to the bands. */
  lemma AddBand<K>(values: map<K, Option<real>>, key: K, value: Option<real>, scope: Scope<K>)
    requires key !in values
    ensures Bands(values[key := value], scope) ==
            if key in scope.bounds then Bands(values, scope)[key := ClassifyBand(value, key, scope.bounds)]
            else Bands(values, scope)
  {
  }

  /** The part of a dictionary an iteration has seen after `i` steps. */
  ghost function Seen<K>(order: seq<K>, values: map<K, Option<real>>, i: nat): map<K, Option<real>>
    requires Enumerates(order, values.Keys) && i <= |order|
  {
    map k | k in order[..i] :: values[k]
  }

  lemma SeenStep<K>(order: seq<K>, values: map<K, Option<real>>, i: nat)
    requires Enumerates(order, values.Keys) && i < |order|
    ensures order[i] !in Seen(order, values, i)
    ensures Seen(order, values, i + 1) == Seen(order, values, i)[order[i] := values[order[i]]]
  {
    assert order[..i + 1] == order[..i] + [order[i]];
  }

  /**
   The accumulating loop, in whatever order the dictionary yields its keys: bands,
   weighted floors and weights add up to the same totals in every order.
   */
  method Accumulate<K(==)>(order: seq<K>, values: map<K, Option<real>>, scope: Scope<K>)
    returns (perMetric: map<K, Band>, weightedScore: real, totalWeight: real)
    requires Enumerates(order, values.Keys)
    ensures perMetric == Bands(values, scope)
    ensures weightedScore == SumOf(ScoreTerms(values, scope))
    ensures totalWeight == SumOf(WeightTerms(values, scope))
  {
    hide ClassifyBand;
    perMetric, weightedScore, totalWeight := map[], 0.0, 0.0;
    for i := 0 to |order|
      invariant perMetric == Bands(Seen(order, values, i), scope)
      invariant weightedScore == SumOf(ScoreTerms(Seen(order, values, i), scope))
      invariant totalWeight == SumOf(WeightTerms(Seen(order, values, i), scope))
    {
      var key := order[i];
      var value := values[key];
      SeenStep(order, values, i);
      AddTerms(Seen(order, values, i), key, value, scope);
      AddBand(Seen(order, values, i), key, value, scope);
      if key in scope.bounds {
        var band := ClassifyBand(value, key, scope.bounds);
        perMetric := perMetric[key := band];
        if band != Unknown && !(band == Green && key in scope.excludedWhenGreen) {
          var weight := scope.Weight(key);
          weightedScore := weightedScore + FloorTimes(band, weight);
          totalWeight := totalWeight + weight;
        }
      }
    }
    assert Seen(order, values, |order|) == values;
  }

  /**
   The score, the band and the per-metric bands of one object. The result mentions
   `values` only: no iteration order changes it.
   */
  method ComputeComposite<K(==)>(order: seq<K>, values: map<K, Option<real>>, scope: Scope<K>)
    returns (scored: Scored<K>)
    requires Enumerates(order, values.Keys)
    ensures scored.perMetric == Bands(values, scope)
    ensures scored.band == CompositeBand(values, scope)
    ensures scored.score == CompositeScore(values, scope)
  {
    hide Clamp, RoundTenths, BandFloor, Ratio, ScoreTerms, WeightTerms, Enumerates, SumOf;
    var perMetric, weightedScore, totalWeight := Accumulate(order, values, scope);
    var known := set k | k in perMetric && perMetric[k] != Unknown :: perMetric[k];
    if known == {} {
      return Scored(0.0, Unknown, perMetric);
    }
    var worst := WorstBand(known);
    var average := Ratio(weightedScore, totalWeight);
    return Scored(RoundTenths(Clamp(0.7 * BandFloor(worst) + 0.3 * average)), worst, perMetric);
  }

  /** How many known sub-metrics are in the composite band; none when the band is unknown. */
  function MetricsInWorstBand<K(==)>(band: Band, perMetric: map<K, Band>): Option<nat> {
    if BandLevel(band).None? then None
    else Some(|set k | k in perMetric && perMetric[k] == band|)
  }
}
