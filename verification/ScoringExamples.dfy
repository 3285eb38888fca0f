/** Scores of a host that go the other way than the documentation says, on the shipped tables. */
module ScoringExamples {
  import opened Common
  import opened Constants
  import opened Scoring
  import opened ScoringTheorems
  import opened Thresholds

  /** A host of which only the zip swap is known, and red, besides one metric that may be. */
  function RedHost(other: MetricKey, value: Option<real>): map<MetricKey, Option<real>> {
    map k | k in HOST_KEYS :: if k == HostMemoryZipSwap then Some(100.0) else if k == other then value else None
  }

  /**
   docs/METRICS.md says that only an unknown metric turning green can lower the score. The overcommit
   ratio, which does not count while green, lowers it from 90 to 85.5 when it turns yellow.
   */
  lemma WorseMetricCanLowerScore()
    ensures CompositeScore(RedHost(HostCpuOvercommitRatio, Some(1.0)), HOST_SCOPE) == 90.0
    ensures CompositeScore(RedHost(HostCpuOvercommitRatio, Some(1.5)), HOST_SCOPE) == 85.5
  {
    hide HOST_KEYS, HOST_SCOPE, CompositeScore, RedHost;
    OvercommitExcluded();
    HostBounds(HostCpuOvercommitRatio);
    YellowBesideRed(HostCpuOvercommitRatio, Some(1.0), 1.5);
  }

  /** So does the ballooned percentage, which always counts when known, when it turns from unknown to yellow. */
  lemma UnknownToYellowCanLowerScore()
    ensures CompositeScore(RedHost(HostMemoryBallooned, None), HOST_SCOPE) == 90.0
    ensures CompositeScore(RedHost(HostMemoryBallooned, Some(1.5)), HOST_SCOPE) == 85.5
  {
    hide HOST_KEYS, HOST_SCOPE, CompositeScore, RedHost;
    BalloonedIsHostKey();
    HostBounds(HostMemoryBallooned);
    YellowBesideRed(HostMemoryBallooned, None, 1.5);
  }

  lemma YellowBesideRed(other: MetricKey, before: Option<real>, yellow: real)
    requires other in HOST_KEYS && other != HostMemoryZipSwap && WeightOf(other) == 1.0
    requires !Counts(other, before, HOST_SCOPE) && ClassifyBand(Some(yellow), other, HOST_SCOPE.bounds) == Yellow
    ensures CompositeScore(RedHost(other, before), HOST_SCOPE) == 90.0
    ensures CompositeScore(RedHost(other, Some(yellow)), HOST_SCOPE) == 85.5
  {
    hide *;
    var values := RedHost(other, before);
    ShippedScopesValid();
    ZipSwapIsRed();
    HostWeight(other);
    OnlyRedCounts(other, before, yellow);
    FallFrom90(values, HostMemoryZipSwap, other, yellow, HOST_SCOPE);
  }

  lemma ZipSwapIsRed()
    ensures HostMemoryZipSwap in HOST_KEYS && HOST_SCOPE.Weight(HostMemoryZipSwap) == 1.0
    ensures ClassifyBand(Some(100.0), HostMemoryZipSwap, HOST_SCOPE.bounds) == Red
  {
    HostWeight(HostMemoryZipSwap);
  }

  lemma OvercommitExcluded()
    ensures HostCpuOvercommitRatio in HOST_KEYS && HostCpuOvercommitRatio in HOST_SCOPE.excludedWhenGreen
  {
    hide SHARED_KEYS, SHARED_EXCLUDED;
  }

  lemma BalloonedIsHostKey()
    ensures HostMemoryBallooned in HOST_KEYS
  {
    hide SHARED_KEYS;
  }

  lemma HostBounds(k: MetricKey)
    requires k in HOST_KEYS
    ensures k in HOST_SCOPE.bounds && HOST_SCOPE.bounds[k] == BoundsOf(k)
  {
    hide HOST_KEYS, WeightOf, BoundsOf;
  }

  lemma HostWeight(k: MetricKey)
    requires k in HOST_KEYS
    ensures HOST_SCOPE.Weight(k) == WeightOf(k)
  {
    hide HOST_KEYS, WeightOf, BoundsOf;
  }

  lemma OnlyRedCounts(other: MetricKey, before: Option<real>, yellow: real)
    requires HostMemoryZipSwap in HOST_KEYS && other in HOST_KEYS && other != HostMemoryZipSwap
    requires !Counts(other, before, HOST_SCOPE)
    ensures var values := RedHost(other, before);
      && other in values && HostMemoryZipSwap in values && values[HostMemoryZipSwap] == Some(100.0)
      && (forall k :: k in values && k != HostMemoryZipSwap ==> !Counts(k, values[k], HOST_SCOPE))
      && values[other := Some(yellow)] == RedHost(other, Some(yellow))
  {
    hide HOST_KEYS, HOST_SCOPE;
  }
}
