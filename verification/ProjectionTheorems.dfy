/** The shipped projection tables against the shipped scopes: every scored metric has one row. */
module ProjectionTheorems {
  import opened Constants
  import opened Scoring
  import opened Thresholds
  import opened Traversal
  import opened NativeProjection
  import opened Projections

  /** Every key that is scored has a row. */
  ghost predicate AllProjected<K(!new)>(scope: Scope<K>, mapping: seq<Row<K>>) {
    forall k :: k in scope.bounds ==> exists i :: 0 <= i < |mapping| && mapping[i].key == k
  }

  /** The row of a VM pair's key, and of each other key, among the shared rows, which come first in both tables. */
  lemma SharedProjected(k: MetricKey)
    requires k in SHARED_KEYS
    ensures exists i :: 0 <= i < |SHARED_PROJECTION| && SHARED_PROJECTION[i].key == k
  {
    hide SHARED_PROJECTION, HOST_ROLLED_KEYS, VM_PAIR_KEYS;
    VmPairKeys();
    if IsVmPair(k) {
      PairProjected(k);
    } else {
      RolledProjected(k);
    }
  }

  lemma PairProjected(k: MetricKey)
    requires IsVmPair(k)
    ensures exists i :: 0 <= i < |SHARED_PROJECTION| && SHARED_PROJECTION[i].key == k
  {
    var i := match k.bucket case VcpuReady => 0 case VcpuCostop => 2 case MemoryContention => 4 case DiskLatency => 7;
    assert SHARED_PROJECTION[i].key == WorstVm(k.bucket) && SHARED_PROJECTION[i + 1].key == P90Vm(k.bucket);
  }

  lemma RolledProjected(k: MetricKey)
    requires k in HOST_ROLLED_KEYS
    ensures exists i :: 0 <= i < |SHARED_PROJECTION| && SHARED_PROJECTION[i].key == k
  {
    var i :=
      match k
      case HostMemoryContention => 6 case HostDroppedPackets => 9 case HostMemoryZipSwap => 10
      case HostCpuImbalanceRatio => 11 case CpuMonsterVmSizeRatio => 12 case _ => 13;
    assert SHARED_PROJECTION[i].key == k;
  }

  lemma ClusterRowsProjected(k: MetricKey)
    requires k in CLUSTER_ONLY_KEYS
    ensures exists i :: 0 <= i < |CLUSTER_ROWS| && CLUSTER_ROWS[i].key == k
  {
    var i :=
      match k
      case CpuThreadUtilization => 0 case ClusterCpuOvercommitRatio => 1 case ClusterCpuImbalance => 2 case VmotionPct => 3
      case MemoryBallooned => 4 case ClusterMemoryOvercommitRatio => 5 case NetworkThroughput => 6 case _ => 7;
    assert CLUSTER_ROWS[i].key == k;
  }

  lemma HostRowsProjected(k: MetricKey)
    requires k in HOST_ONLY_KEYS
    ensures exists i :: 0 <= i < |HOST_ROWS| && HOST_ROWS[i].key == k
  {
    var i :=
      match k
      case HostCpuThreadUtilization => 0 case HostCpuReservation => 1 case HostCpuOvercommitRatio => 2 case HostMemoryConsumed => 3
      case HostMemoryBallooned => 4 case HostMemoryReservation => 5 case _ => 6;
    assert HOST_ROWS[i].key == k;
  }

  /** A key with a row in one of two tables has one in both together. */
  lemma RowOfEither(first: seq<Row<MetricKey>>, second: seq<Row<MetricKey>>, k: MetricKey)
    requires (exists i :: 0 <= i < |first| && first[i].key == k) || exists i :: 0 <= i < |second| && second[i].key == k
    ensures exists i :: 0 <= i < |first + second| && (first + second)[i].key == k
  {
    if i :| 0 <= i < |first| && first[i].key == k {
      assert (first + second)[i].key == k;
    } else {
      var i :| 0 <= i < |second| && second[i].key == k;
      assert (first + second)[|first| + i].key == k;
    }
  }

  lemma ClusterProjected()
    ensures AllProjected(CLUSTER_SCOPE, CLUSTER_PROJECTION)
  {
    hide SHARED_KEYS, CLUSTER_ONLY_KEYS, SHARED_PROJECTION, CLUSTER_ROWS, BoundsOf, WeightOf;
    forall k | k in CLUSTER_SCOPE.bounds ensures exists i :: 0 <= i < |CLUSTER_PROJECTION| && CLUSTER_PROJECTION[i].key == k {
      if k in SHARED_KEYS {
        SharedProjected(k);
      } else {
        ClusterRowsProjected(k);
      }
      RowOfEither(SHARED_PROJECTION, CLUSTER_ROWS, k);
    }
  }

  lemma HostProjected()
    ensures AllProjected(HOST_SCOPE, HOST_PROJECTION)
  {
    hide SHARED_KEYS, HOST_ONLY_KEYS, SHARED_PROJECTION, HOST_ROWS, BoundsOf, WeightOf;
    forall k | k in HOST_SCOPE.bounds ensures exists i :: 0 <= i < |HOST_PROJECTION| && HOST_PROJECTION[i].key == k {
      if k in SHARED_KEYS {
        SharedProjected(k);
      } else {
        HostRowsProjected(k);
      }
      RowOfEither(SHARED_PROJECTION, HOST_ROWS, k);
    }
  }

  lemma ShippedAllProjected()
    ensures AllProjected(CLUSTER_SCOPE, CLUSTER_PROJECTION) && AllProjected(HOST_SCOPE, HOST_PROJECTION)
  {
    hide *;
    ClusterProjected();
    HostProjected();
  }

  // ----- one row each -----

  /** No key has two rows. */
  ghost predicate DistinctKeys<K(!new)>(mapping: seq<Row<K>>) {
    forall i, j :: 0 <= i < j < |mapping| ==> mapping[i].key != mapping[j].key
  }

  /** Every scored metric has a row, every row is scored, and no key has two. */
  ghost predicate RowsCover<K(!new)>(mapping: seq<Row<K>>, scope: Scope<K>) {
    && DistinctKeys(mapping)
    && (forall i :: 0 <= i < |mapping| ==> mapping[i].key in scope.bounds)
    && AllProjected(scope, mapping)
  }

  /** The place of a key's row in the tables that have one. */
  function RowIndex(k: MetricKey): nat {
    match k
    case WorstVm(VcpuReady) => 0 case P90Vm(VcpuReady) => 1 case WorstVm(VcpuCostop) => 2 case P90Vm(VcpuCostop) => 3
    case WorstVm(MemoryContention) => 4 case P90Vm(MemoryContention) => 5 case HostMemoryContention => 6
    case WorstVm(DiskLatency) => 7 case P90Vm(DiskLatency) => 8 case HostDroppedPackets => 9 case HostMemoryZipSwap => 10
    case HostCpuImbalanceRatio => 11 case CpuMonsterVmSizeRatio => 12 case MemoryMonsterVmSizeRatio => 13
    case CpuThreadUtilization => 14 case ClusterCpuOvercommitRatio => 15 case ClusterCpuImbalance => 16 case VmotionPct => 17
    case MemoryBallooned => 18 case ClusterMemoryOvercommitRatio => 19 case NetworkThroughput => 20 case DiskIops => 21
    case HostCpuThreadUtilization => 14 case HostCpuReservation => 15 case HostCpuOvercommitRatio => 16
    case HostMemoryConsumed => 17 case HostMemoryBallooned => 18 case HostMemoryReservation => 19
    case HostMemoryOvercommitRatio => 20
  }

  lemma SharedPlaces()
    ensures |SHARED_PROJECTION| == 14
    ensures forall i :: 0 <= i < 14 ==> RowIndex(SHARED_PROJECTION[i].key) == i && SHARED_PROJECTION[i].key in SHARED_KEYS
  {
  }

  lemma ClusterPlaces()
    ensures |CLUSTER_ROWS| == 8
    ensures forall i :: 0 <= i < 8 ==> RowIndex(CLUSTER_ROWS[i].key) == 14 + i && CLUSTER_ROWS[i].key in CLUSTER_ONLY_KEYS
  {
  }

  lemma HostPlaces()
    ensures |HOST_ROWS| == 7
    ensures forall i :: 0 <= i < 7 ==> RowIndex(HOST_ROWS[i].key) == 14 + i && HOST_ROWS[i].key in HOST_ONLY_KEYS
  {
  }

  lemma OwnPlaces(own: seq<Row<MetricKey>>)
    requires |SHARED_PROJECTION| == 14 && forall i :: 0 <= i < 14 ==> RowIndex(SHARED_PROJECTION[i].key) == i
    requires forall i :: 0 <= i < |own| ==> RowIndex(own[i].key) == 14 + i
    ensures DistinctKeys(SHARED_PROJECTION + own)
  {
    hide SHARED_PROJECTION, RowIndex;
    var rows := SHARED_PROJECTION + own;
    assert forall i :: 0 <= i < |rows| ==> RowIndex(rows[i].key) == i;
  }

  /** Both shipped tables have one row for each metric of their scope, and no other. */
  lemma ShippedRowsCover()
    ensures RowsCover(CLUSTER_PROJECTION, CLUSTER_SCOPE) && RowsCover(HOST_PROJECTION, HOST_SCOPE)
  {
    hide SHARED_PROJECTION, CLUSTER_ROWS, HOST_ROWS, SHARED_KEYS, CLUSTER_ONLY_KEYS, HOST_ONLY_KEYS, RowIndex,
         BoundsOf, WeightOf, DistinctKeys;
    SharedPlaces();
    ClusterPlaces();
    HostPlaces();
    OwnPlaces(CLUSTER_ROWS);
    OwnPlaces(HOST_ROWS);
    ShippedAllProjected();
  }
}
