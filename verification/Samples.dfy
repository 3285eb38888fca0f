/**
 Sample lists and the two summaries taken of them: the worst (largest) sample and
 the nearest-rank percentile (app/traversal.py).
 */
module Samples {
  import opened Common

  // ----- known values of a list of optional ones -----

  function Known(options: seq<Option<real>>): (known: seq<real>)
    ensures |known| <= |options|
  {
    if options == [] then []
    else
      var last := options[|options| - 1];
      Known(options[..|options| - 1]) + if last.Some? then [last.value] else []
  }

  lemma {:induction false} KnownMembers(options: seq<Option<real>>, x: real)
    ensures x in Known(options) <==> Some(x) in options
  {
    if options != [] {
      var n := |options| - 1;
      KnownMembers(options[..n], x);
      assert options == options[..n] + [options[n]];
    }
  }

  lemma {:induction false} KnownAppend(options: seq<Option<real>>, last: Option<real>)
    ensures Known(options + [last]) == Known(options) + if last.Some? then [last.value] else []
  {
    assert (options + [last])[..|options|] == options;
  }

  // ----- the worst sample -----

  function Max(samples: seq<real>): (m: real)
    requires samples != []
    ensures m in samples
    ensures forall x :: x in samples ==> x <= m
  {
    if |samples| == 1 then samples[0]
    else
      var m := Max(samples[1..]);
      assert samples == [samples[0]] + samples[1..];
      if samples[0] >= m then samples[0] else m
  }

  function MaxOrNone(samples: seq<real>): Option<real> {
    if samples == [] then None else Some(Max(samples))
  }

  /** The largest known value, or no data. */
  function Worst(options: seq<Option<real>>): Option<real> {
    MaxOrNone(Known(options))
  }

  /** `worst` is the largest of the known values, or no data when none is known. */
  ghost predicate IsWorst(worst: Option<real>, options: seq<Option<real>>) {
    && (worst.None? <==> forall x :: Some(x) !in options)
    && (worst.Some? ==> worst in options && forall x :: Some(x) in options ==> x <= worst.value)
  }

  lemma WorstIsWorst(options: seq<Option<real>>)
    ensures IsWorst(Worst(options), options)
  {
    forall x ensures x in Known(options) <==> Some(x) in options {
      KnownMembers(options, x);
    }
    if Known(options) != [] {
      assert Known(options)[0] in Known(options);
    }
  }

  // ----- sorting -----

  predicate Ascending(s: seq<real>) {
    forall i, j :: 0 <= i < j < |s| ==> s[i] <= s[j]
  }

  function Insert(x: real, s: seq<real>): (r: seq<real>)
    requires Ascending(s)
    ensures Ascending(r) && |r| == |s| + 1
    ensures forall y :: y in r <==> y == x || y in s
  {
    if s == [] || x <= s[0] then [x] + s
    else
      var rest := Insert(x, s[1..]);
      assert s == [s[0]] + s[1..];
      assert forall y :: y in rest ==> s[0] <= y;
      assert forall i :: 0 <= i < |rest| ==> rest[i] in rest;
      [s[0]] + rest
  }

  function Sorted(s: seq<real>): (r: seq<real>)
    ensures Ascending(r) && |r| == |s|
    ensures forall y :: y in r <==> y in s
  {
    if s == [] then []
    else
      assert s == [s[0]] + s[1..];
      Insert(s[0], Sorted(s[1..]))
  }

  /** The last element of an ascending list with the same members is the largest. */
  lemma LastIsMax(s: seq<real>, samples: seq<real>)
    requires samples != [] && Ascending(s) && s != []
    requires forall y :: y in s <==> y in samples
    ensures s[|s| - 1] == Max(samples)
  {
    var last := s[|s| - 1];
    assert last in s;
    assert Max(samples) in s;
  }

  // ----- counting -----

  /** How many samples are at most `v`. */
  function AtMost(s: seq<real>, v: real): nat {
    if s == [] then 0 else (if s[0] <= v then 1 else 0) + AtMost(s[1..], v)
  }

  /** How many samples are strictly below `v`. */
  function Below(s: seq<real>, v: real): nat {
    if s == [] then 0 else (if s[0] < v then 1 else 0) + Below(s[1..], v)
  }

  lemma {:induction false} CountAppend(a: seq<real>, b: seq<real>, v: real)
    ensures AtMost(a + b, v) == AtMost(a, v) + AtMost(b, v)
    ensures Below(a + b, v) == Below(a, v) + Below(b, v)
  {
    if a == [] {
      assert a + b == b;
    } else {
      assert (a + b)[1..] == a[1..] + b;
      CountAppend(a[1..], b, v);
    }
  }

  /** Everything at most `w < v` is below `v`; everything below `v` is at most `v`. */
  lemma {:induction false} CountOrder(s: seq<real>, w: real, v: real)
    ensures w < v ==> AtMost(s, w) <= Below(s, v)
    ensures w <= v ==> Below(s, w) <= Below(s, v)
    ensures Below(s, v) <= AtMost(s, v) <= |s|
  {
    if s != [] {
      CountOrder(s[1..], w, v);
    }
  }

  lemma {:induction false} InsertCounts(x: real, s: seq<real>, v: real)
    requires Ascending(s)
    ensures AtMost(Insert(x, s), v) == AtMost(s, v) + (if x <= v then 1 else 0)
    ensures Below(Insert(x, s), v) == Below(s, v) + (if x < v then 1 else 0)
  {
    if s == [] || x <= s[0] {
      assert ([x] + s)[1..] == s;
    } else {
      InsertCounts(x, s[1..], v);
      assert ([s[0]] + Insert(x, s[1..]))[1..] == Insert(x, s[1..]);
    }
  }

  lemma {:induction false} SortedCounts(s: seq<real>, v: real)
    ensures AtMost(Sorted(s), v) == AtMost(s, v)
    ensures Below(Sorted(s), v) == Below(s, v)
  {
    if s != [] {
      SortedCounts(s[1..], v);
      InsertCounts(s[0], Sorted(s[1..]), v);
    }
  }

  lemma {:induction false} CountAll(s: seq<real>, v: real)
    ensures (forall x :: x in s ==> x <= v) ==> AtMost(s, v) == |s|
    ensures (forall x :: x in s ==> v <= x) ==> Below(s, v) == 0
  {
    if s != [] {
      assert s[0] in s && forall x :: x in s[1..] ==> x in s;
      CountAll(s[1..], v);
    }
  }

  // ----- nearest-rank percentile -----

  /** The index is in bounds for every non-empty list and every percentile up to 1. */
  function Percentile(sorted: seq<real>, pct: real): (p: real)
    requires sorted != [] && 0.0 <= pct <= 1.0
    ensures p in sorted
  {
    RankInBounds(|sorted|, pct);
    var index := MaxInt(0, Ceil(pct * |sorted| as real) - 1);
    sorted[index]
  }

  lemma RankInBounds(n: nat, pct: real)
    requires n > 0 && 0.0 <= pct <= 1.0
    ensures 0 <= MaxInt(0, Ceil(pct * n as real) - 1) < n
  {
    ProductNotNegative(pct, n as real);
    ProductNotNegative(1.0 - pct, n as real);
    assert (1.0 - pct) * n as real == n as real - pct * n as real;
  }

  lemma ProductNotNegative(a: real, b: real)
    requires a >= 0.0 && b >= 0.0
    ensures a * b >= 0.0
  {
  }

  /** The nearest-rank 90th percentile of an unsorted sample list. */
  function P90(samples: seq<real>): (p: real)
    requires samples != []
    ensures p in samples
  {
    Percentile(Sorted(samples), 0.9)
  }

  /** No samples, no percentile. */
  function P90OrNone(samples: seq<real>): Option<real> {
    if samples == [] then None else Some(P90(samples))
  }

  /** At least nine tenths of the samples are at most `v`, and fewer than nine tenths are strictly below it. */
  ghost predicate AtRank90(v: real, samples: seq<real>) {
    && v in samples
    && 10 * AtMost(samples, v) >= 9 * |samples|
    && 10 * Below(samples, v) < 9 * |samples|
  }

  /** The sample at index `i` of a sorted list has at least `i + 1` samples at most it and at most `i` below it. */
  lemma {:induction false} SortedRank(s: seq<real>, i: nat)
    requires Ascending(s) && i < |s|
    ensures AtMost(s, s[i]) >= i + 1
    ensures Below(s, s[i]) <= i
  {
    hide AtMost, Below;
    var head, tail := s[..i + 1], s[i + 1..];
    assert s == head + tail;
    CountAppend(head, tail, s[i]);
    CountAll(head, s[i]);
    var front, rest := s[..i], s[i..];
    assert s == front + rest;
    CountAppend(front, rest, s[i]);
    CountAll(rest, s[i]);
    CountOrder(front, s[i], s[i]);
  }

  lemma P90Index(n: nat)
    requires n > 0
    ensures var index := MaxInt(0, Ceil(0.9 * n as real) - 1);
      index < n && 9 * n <= 10 * (index + 1) < 9 * n + 10
  {
    var share := 0.9 * n as real;
    assert 10.0 * share == (9 * n) as real;
  }

  /** The counting meaning of the percentile, for every non-empty sample list. */
  lemma P90AtRank(samples: seq<real>)
    requires samples != []
    ensures AtRank90(P90(samples), samples)
  {
    var s := Sorted(samples);
    P90Index(|s|);
    var index := MaxInt(0, Ceil(0.9 * |s| as real) - 1);
    SortedRank(s, index);
    SortedCounts(samples, s[index]);
  }

  /** Any value with nine tenths of the samples at most it is at least the percentile: the percentile is the smallest such sample. */
  lemma P90IsSmallest(samples: seq<real>, v: real)
    requires samples != []
    requires 10 * AtMost(samples, v) >= 9 * |samples|
    ensures P90(samples) <= v
  {
    P90AtRank(samples);
    CountOrder(samples, v, P90(samples));
  }

  /** Only one value is at the rank, so the percentile does not depend on the order of the samples. */
  lemma AtRank90Unique(v: real, w: real, samples: seq<real>)
    requires AtRank90(v, samples) && AtRank90(w, samples)
    ensures v == w
  {
    CountOrder(samples, v, w);
    CountOrder(samples, w, v);
  }

  // ----- a pooled list against its parts -----

  function Pool(parts: seq<seq<real>>): seq<real> {
    if parts == [] then [] else Pool(parts[..|parts| - 1]) + parts[|parts| - 1]
  }

  lemma {:induction false} PoolMembers(parts: seq<seq<real>>, x: real)
    ensures x in Pool(parts) <==> exists i :: 0 <= i < |parts| && x in parts[i]
  {
    if parts != [] {
      var n := |parts| - 1;
      PoolMembers(parts[..n], x);
      if x in Pool(parts[..n]) {
        var i :| 0 <= i < n && x in parts[..n][i];
        assert x in parts[i];
      }
      if i :| 0 <= i < |parts| && x in parts[i] {
        assert i < n ==> x in parts[..n][i];
      }
    }
  }

  /** If in every part fewer than nine tenths are at most `v`, so it is in the pool. */
  lemma {:induction false} PoolAtMost(parts: seq<seq<real>>, v: real)
    requires forall i :: 0 <= i < |parts| ==> 10 * AtMost(parts[i], v) < 9 * |parts[i]| || parts[i] == []
    ensures 10 * AtMost(Pool(parts), v) < 9 * |Pool(parts)| || Pool(parts) == []
  {
    if parts != [] {
      var n := |parts| - 1;
      PoolAtMost(parts[..n], v);
      CountAppend(Pool(parts[..n]), parts[n], v);
    }
  }

  /** If in every part at least nine tenths are below `v`, so it is in the pool. */
  lemma {:induction false} PoolBelow(parts: seq<seq<real>>, v: real)
    requires forall i :: 0 <= i < |parts| ==> 10 * Below(parts[i], v) >= 9 * |parts[i]|
    ensures 10 * Below(Pool(parts), v) >= 9 * |Pool(parts)|
  {
    if parts != [] {
      var n := |parts| - 1;
      PoolBelow(parts[..n], v);
      CountAppend(Pool(parts[..n]), parts[n], v);
    }
  }

  /** Some part's percentile is at least the pool's: not all parts can lie below it. */
  lemma SomePartAbove(parts: seq<seq<real>>) returns (high: nat)
    requires Pool(parts) != []
    ensures high < |parts| && parts[high] != [] && P90(Pool(parts)) <= P90(parts[high])
  {
    var p := P90(Pool(parts));
    P90AtRank(Pool(parts));
    if h :| 0 <= h < |parts| && parts[h] != [] && p <= P90(parts[h]) {
      return h;
    }
    forall i | 0 <= i < |parts| ensures 10 * Below(parts[i], p) >= 9 * |parts[i]| {
      if parts[i] != [] {
        P90AtRank(parts[i]);
        CountOrder(parts[i], P90(parts[i]), p);
      }
    }
    PoolBelow(parts, p);
    assert false;
  }

  lemma SomePartBelow(parts: seq<seq<real>>) returns (low: nat)
    requires Pool(parts) != []
    ensures low < |parts| && parts[low] != [] && P90(parts[low]) <= P90(Pool(parts))
  {
    var p := P90(Pool(parts));
    P90AtRank(Pool(parts));
    if l :| 0 <= l < |parts| && parts[l] != [] && P90(parts[l]) <= p {
      return l;
    }
    forall i | 0 <= i < |parts| ensures 10 * AtMost(parts[i], p) < 9 * |parts[i]| || parts[i] == [] {
      if parts[i] != [] {
        P90AtRank(parts[i]);
        CountOrder(parts[i], p, P90(parts[i]));
      }
    }
    PoolAtMost(parts, p);
    assert false;
  }

  /**
   The percentile of a pool lies between the smallest and the largest percentile of its
   non-empty parts, for any number and size of parts.
   */
  lemma PoolP90Between(parts: seq<seq<real>>)
    requires Pool(parts) != []
    ensures exists low :: 0 <= low < |parts| && parts[low] != [] && P90(parts[low]) <= P90(Pool(parts))
    ensures exists high :: 0 <= high < |parts| && parts[high] != [] && P90(Pool(parts)) <= P90(parts[high])
  {
    var low := SomePartBelow(parts);
    var high := SomePartAbove(parts);
  }

  /** The largest sample of each part, no data for an empty part. */
  function PartWorsts(parts: seq<seq<real>>): (worsts: seq<Option<real>>)
    ensures |worsts| == |parts|
    ensures forall i :: 0 <= i < |parts| ==> worsts[i] == MaxOrNone(parts[i])
  {
    seq(|parts|, i requires 0 <= i < |parts| => MaxOrNone(parts[i]))
  }

  lemma PartWorstInPool(parts: seq<seq<real>>, i: nat)
    requires i < |parts| && parts[i] != []
    ensures Pool(parts) != [] && Max(parts[i]) in Pool(parts)
  {
    PoolMembers(parts, Max(parts[i]));
  }

  lemma PoolWorstInParts(parts: seq<seq<real>>)
    requires Pool(parts) != []
    ensures Some(Max(Pool(parts))) in PartWorsts(parts)
  {
    var m := Max(Pool(parts));
    PoolMembers(parts, m);
    var i :| 0 <= i < |parts| && m in parts[i];
    PartWorstInPool(parts, i);
    PoolMembers(parts, Max(parts[i]));
    assert PartWorsts(parts)[i] == Some(m);
  }

  /** The largest sample of a pool is the largest of its parts' largest samples. */
  lemma PoolWorst(parts: seq<seq<real>>)
    ensures IsWorst(MaxOrNone(Pool(parts)), PartWorsts(parts))
  {
    forall x | Some(x) in PartWorsts(parts) ensures Pool(parts) != [] && x <= Max(Pool(parts)) {
      var i :| 0 <= i < |parts| && PartWorsts(parts)[i] == Some(x);
      PartWorstInPool(parts, i);
    }
    if Pool(parts) != [] {
      PoolWorstInParts(parts);
    }
  }

  // ----- losing samples -----

  function OnesThenTen(ones: nat): (s: seq<real>)
    ensures |s| == ones + 1 && s[ones] == 10.0 && forall i :: 0 <= i < ones ==> s[i] == 1.0
  {
    seq(ones, i => 1.0) + [10.0]
  }

  /** The percentile is not monotone: losing one small sample of ten lifts it from 1 to 10. */
  lemma LosingASampleCanRaiseP90()
    ensures P90(OnesThenTen(9)) == 1.0 && P90(OnesThenTen(8)) == 10.0
  {
    P90OfOnes(OnesThenTen(9), 9);
    P90OfOnes(OnesThenTen(8), 8);
  }

  lemma P90OfOnes(s: seq<real>, ones: nat)
    requires |s| == ones + 1 && s[ones] == 10.0
    requires forall i :: 0 <= i < ones ==> s[i] == 1.0
    ensures P90(s) == if 10 * ones >= 9 * |s| then 1.0 else 10.0
  {
    var p := P90(s);
    OnesCounts(s, ones);
    P90AtRank(s);
    var i :| 0 <= i < |s| && s[i] == p;
    if 10 * ones >= 9 * |s| {
      P90IsSmallest(s, 1.0);
    } else {
      assert AtMost(s, p) != ones;
    }
  }

  lemma OnesCounts(s: seq<real>, ones: nat)
    requires |s| == ones + 1 && s[ones] == 10.0
    requires forall i :: 0 <= i < ones ==> s[i] == 1.0
    ensures AtMost(s, 1.0) == ones
  {
    var front, last := s[..ones], [10.0];
    assert s == front + last;
    CountAppend(front, last, 1.0);
    CountAll(front, 1.0);
    assert AtMost(last, 1.0) == 0;
  }
}
