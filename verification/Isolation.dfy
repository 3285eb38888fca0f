/**
 One cluster failing and the others. The loop's handler keeps a failed iteration from stopping later ones,
 but all of them share the newest sample, which a failed iteration may have moved.
 */
module Isolation {
  import opened Common
  import opened Constants
  import opened Server
  import opened SuiteApi
  import opened BulkTheorems
  import opened Gathering
  import opened Adapter
  import opened Cycle
  import opened CycleTheorems

  // ----- what the iterations keep -----

  /** The completed stats reads of some iterations, one after the other. */
  ghost function AllReads(steps: seq<Step>): seq<Read> {
    if steps == [] then [] else AllReads(steps[..|steps| - 1]) + steps[|steps| - 1].gathered.run
  }

  /** What each of these reads keeps. */
  ghost function AllKept(steps: seq<Step>): (kept: seq<map<SampleKey, real>>)
    ensures |kept| == |AllReads(steps)|
  {
    if steps == [] then []
    else
      var last := steps[|steps| - 1];
      AllKept(steps[..|steps| - 1]) + Kept(last.gathered.run, last.before)
  }

  /** What chained iterations keep, and the newest sample they leave, is decided by their reads and the first reference. */
  lemma {:induction false} KeptFromFirst(steps: seq<Step>, first: int)
    requires Chained(steps, first)
    ensures AllKept(steps) == Kept(AllReads(steps), first)
    ensures NewestOf(steps, first) == Reference(AllReads(steps), first)
  {
    hide Chained, Kept, Reference;
    if steps == [] {
      EmptyRun(first);
    } else {
      var n := |steps| - 1;
      ChainInit(steps, first);
      KeptFromFirst(steps[..n], first);
      ReadsAfter(AllReads(steps[..n]), steps[n].gathered.run, first);
    }
  }

  /** The replies to two runs' iterations say the same, one by one; the requests may differ in number. */
  ghost predicate Alike(a: seq<Step>, b: seq<Step>) {
    |a| == |b| && forall i :: 0 <= i < |a| ==> a[i].gathered.Alike(b[i].gathered)
  }

  /** Two runs' iterations read the same, one by one. */
  ghost predicate SameSnapshots(a: seq<Step>, b: seq<Step>) {
    |a| == |b| && forall i :: 0 <= i < |a| ==> a[i].Snap() == b[i].Snap()
  }

  lemma {:induction false} AlikeInit(a: seq<Step>, b: seq<Step>)
    requires Alike(a, b) && a != []
    ensures Alike(a[..|a| - 1], b[..|b| - 1]) && a[|a| - 1].gathered.Alike(b[|b| - 1].gathered)
  {
  }

  lemma {:induction false} AlikeReads(a: seq<Step>, b: seq<Step>)
    requires Alike(a, b)
    ensures AllReads(a) == AllReads(b)
  {
    hide Alike;
    AlikeLength(a, b);
    if a != [] {
      AlikeInit(a, b);
      AlikeReads(a[..|a| - 1], b[..|b| - 1]);
    }
  }

  lemma AlikeLength(a: seq<Step>, b: seq<Step>)
    requires Alike(a, b)
    ensures |a| == |b|
  {
  }

  /** Where the replies say the same, iterations whose reads keep the same read the same. */
  lemma {:induction false} SameKeptSameSnapshots(a: seq<Step>, b: seq<Step>)
    requires Alike(a, b) && AllKept(a) == AllKept(b)
    ensures SameSnapshots(a, b)
  {
    hide Alike, Kept, Step.Snap, SameSnapshots;
    AlikeLength(a, b);
    if a == [] {
      NoSnapshots();
    } else {
      var n := |a| - 1;
      AlikeInit(a, b);
      AlikeReads(a[..n], b[..n]);
      assert AllKept(a) == AllKept(a[..n]) + Kept(a[n].gathered.run, a[n].before);
      assert AllKept(b) == AllKept(b[..n]) + Kept(b[n].gathered.run, b[n].before);
      SameParts(AllKept(a[..n]), Kept(a[n].gathered.run, a[n].before), AllKept(b[..n]), Kept(b[n].gathered.run, b[n].before));
      SameKeptSameSnapshots(a[..n], b[..n]);
      SameSnap(a[n], b[n]);
      OneMoreSame(a, b);
    }
  }

  lemma NoSnapshots()
    ensures SameSnapshots([], [])
  {
  }

  lemma SameParts<T>(a: seq<T>, x: seq<T>, b: seq<T>, y: seq<T>)
    requires |a| == |b| && a + x == b + y
    ensures a == b && x == y
  {
    assert a == (a + x)[..|a|] && b == (b + y)[..|b|];
    assert x == (a + x)[|a|..] && y == (b + y)[|b|..];
  }

  lemma SameSnap(a: Step, b: Step)
    requires a.gathered.Alike(b.gathered) && Kept(a.gathered.run, a.before) == Kept(b.gathered.run, b.before)
    ensures a.Snap() == b.Snap()
  {
  }

  lemma {:induction false} OneMoreSame(a: seq<Step>, b: seq<Step>)
    requires |a| == |b| > 0 && SameSnapshots(a[..|a| - 1], b[..|b| - 1]) && a[|a| - 1].Snap() == b[|b| - 1].Snap()
    ensures SameSnapshots(a, b)
  {
    hide Step.Snap;
    var n := |a| - 1;
    forall i | 0 <= i < |a| ensures a[i].Snap() == b[i].Snap() {
      if i < n {
        assert a[..n][i] == a[i] && b[..n][i] == b[i];
      }
    }
  }

  /** Iterations that read the same publish and count the same. */
  lemma {:induction false} SameSnapshotsPublish(a: seq<Step>, b: seq<Step>, inputs: Inputs)
    requires SameSnapshots(a, b)
    ensures PublishedBy(a, inputs) == PublishedBy(b, inputs)
    ensures SummaryOf(a, inputs) == SummaryOf(b, inputs)
  {
    hide ClusterPublications, TotalsAfter, Step.Snap;
    if a != [] {
      var n := |a| - 1;
      assert a[n].Snap() == b[n].Snap();
      assert forall i :: 0 <= i < n ==> a[..n][i] == a[i] && b[..n][i] == b[i];
      SameSnapshotsPublish(a[..n], b[..n], inputs);
    }
  }

  // ----- a run with a failed iteration, and the run without it -----

  /** All but element p. */
  function Without<T>(s: seq<T>, p: nat): seq<T>
    requires p < |s|
  {
    s[..p] + s[p + 1..]
  }

  /** An iteration that raised while reading adds nothing to the totals. */
  lemma {:induction false} FailedCountsNothing(steps: seq<Step>, p: nat, inputs: Inputs)
    requires p < |steps| && steps[p].Snap().Raise?
    ensures SummaryOf(steps, inputs) == SummaryOf(Without(steps, p), inputs)
  {
    hide TotalsAfter, Step.Snap;
    var n := |steps| - 1;
    var without := Without(steps, p);
    if p == n {
      assert without == steps[..n];
    } else {
      hide SummaryAfter;
      assert without[..n - 1] == Without(steps[..n], p) && without[n - 1] == steps[n];
      FailedCountsNothing(steps[..n], p, inputs);
    }
  }

  lemma {:induction false} PublishedJoin(a: seq<Step>, b: seq<Step>, inputs: Inputs)
    ensures PublishedBy(a + b, inputs) == PublishedBy(a, inputs) + PublishedBy(b, inputs)
  {
    hide PublishedByOne;
    if b == [] {
      assert a + b == a;
    } else {
      var n := |b| - 1;
      assert (a + b)[..|a| + n] == a + b[..n];
      PublishedJoin(a, b[..n], inputs);
    }
  }

  /** Published before, by and after iteration p. */
  lemma PublishedAround(steps: seq<Step>, p: nat, inputs: Inputs)
    requires p < |steps|
    ensures PublishedBy(steps, inputs)
            == PublishedBy(steps[..p], inputs) + PublishedByOne(steps[p], inputs) + PublishedBy(steps[p + 1..], inputs)
  {
    hide PublishedByOne;
    assert steps == steps[..p] + ([steps[p]] + steps[p + 1..]);
    assert [steps[p]][..0] == [];
    PublishedJoin(steps[..p], [steps[p]] + steps[p + 1..], inputs);
    PublishedJoin([steps[p]], steps[p + 1..], inputs);
  }

  /** The iterations from p on are chained from the newest sample known at p. */
  lemma {:induction false} ChainSplit(steps: seq<Step>, p: nat, first: int)
    requires Chained(steps, first) && p <= |steps|
    ensures Chained(steps[..p], first) && Chained(steps[p..], NewestOf(steps[..p], first))
    ensures NewestOf(steps[p..], NewestOf(steps[..p], first)) == NewestOf(steps, first)
    ensures p < |steps| ==> steps[p].before == NewestOf(steps[..p], first) && NewestOf(steps[..p + 1], first) == steps[p].After()
  {
    hide Step.After;
    var mid := NewestOf(steps[..p], first);
    forall i | 0 <= i < p ensures steps[..p][i].before == NewestOf(steps[..p][..i], first) {
      assert steps[..p][..i] == steps[..i];
    }
    forall i | 0 <= i < |steps| - p ensures steps[p..][i].before == NewestOf(steps[p..][..i], mid) {
      assert steps[p..][..i] == steps[p..p + i] && steps[p..][i] == steps[p + i];
      assert steps[p + i].before == NewestOf(steps[..p + i], first);
      if i > 0 {
        assert steps[..p + i][p + i - 1] == steps[p..p + i][i - 1];
      }
    }
  }

  /** From the same reference, where the replies say the same, the same is kept and the same newest sample left. */
  lemma SameStart(a: seq<Step>, b: seq<Step>, first: int)
    requires Chained(a, first) && Chained(b, first) && Alike(a, b)
    ensures AllKept(a) == AllKept(b) && NewestOf(a, first) == NewestOf(b, first)
  {
    hide Chained, Alike, Kept, Reference, NewestOf;
    KeptFromFirst(a, first);
    KeptFromFirst(b, first);
    AlikeReads(a, b);
  }

  /** From a later reference: the same is kept exactly when all that is kept from the earlier one is within its limit. */
  lemma LaterStart(a: seq<Step>, b: seq<Step>, before: int, left: int)
    requires Chained(a, left) && Chained(b, before) && Alike(a, b) && before <= left
    ensures NewestOf(a, left) == MaxInt(left, NewestOf(b, before))
    ensures AllKept(a) == AllKept(b) <==> WithinLimit(AllReads(b), before, left)
  {
    hide Chained, Alike, WithinLimit, Kept, Reference, NewestOf;
    KeptFromFirst(a, left);
    KeptFromFirst(b, before);
    AlikeReads(a, b);
    LaterReferenceKeeps(AllReads(b), before, left);
    ReferenceAbove(AllReads(b), before, left);
  }

  /**
   One failed iteration, and the run without it. Run A goes through the clusters, run B through the same ones
   without cluster p; the server and the clock answer both alike, with whatever failures. The clusters before p
   read the same. Those after p read the same exactly when every sample that they keep in run B is within 10 minutes
   of the newest sample known after iteration p, however that one ended.
   */
  lemma FailedIterationIsFelt(
      clusters: seq<Resource>, p: nat, first: int,
      apiA: Api, timesA: nat -> ReadTimes, fromA: nat, a: seq<Step>,
      apiB: Api, timesB: nat -> ReadTimes, fromB: nat, b: seq<Step>)
    requires p < |clusters| == |a| && Walk(apiA, timesA, clusters, fromA, first, a)
    requires |b| + 1 == |a| && Walk(apiB, timesB, Without(clusters, p), fromB, first, b)
    requires Alike(Without(a, p), b)
    ensures AllKept(a[..p]) == AllKept(b[..p])
    ensures AllKept(a[p + 1..]) == AllKept(b[p..]) <==> WithinLimit(AllReads(b[p..]), a[p].before, a[p].After())
    ensures NewestOf(a, first) == MaxInt(a[p].After(), NewestOf(b, first))
  {
    hide Walk, Chained, Alike, AllKept, AllReads, WithinLimit, NewestOf, Step.After;
    WalkChains(apiA, timesA, clusters, fromA, first, a);
    WalkChains(apiB, timesB, Without(clusters, p), fromB, first, b);
    ChainSplit(a, p, first);
    ChainSplit(a, p + 1, first);
    ChainSplit(b, p, first);
    AlikeSplit(a, b, p);
    SameStart(a[..p], b[..p], first);
    NeverBack(a[p]);
    LaterStart(a[p + 1..], b[p..], a[p].before, a[p].After());
  }

  lemma NeverBack(step: Step)
    ensures step.before <= step.After()
  {
    ReferenceAbove(step.gathered.run, step.before, step.before);
  }

  lemma {:induction false} AlikeSplit(a: seq<Step>, b: seq<Step>, p: nat)
    requires p < |a| == |b| + 1 && Alike(Without(a, p), b)
    ensures Alike(a[..p], b[..p]) && Alike(a[p + 1..], b[p..])
  {
    var without := Without(a, p);
    forall i | 0 <= i < p ensures a[..p][i].gathered.Alike(b[..p][i].gathered) {
      assert without[i] == a[..p][i];
    }
    forall i | 0 <= i < |b| - p ensures a[p + 1..][i].gathered.Alike(b[p..][i].gathered) {
      assert without[p + i] == a[p + 1..][i];
    }
  }

  /**
   Under that condition run A publishes what run B does, with what iteration p itself had published in between;
   when iteration p raised while reading that is nothing, and the totals agree as well.
   */
  lemma FailedIterationPublishes(
      clusters: seq<Resource>, p: nat, first: int, inputs: Inputs,
      apiA: Api, timesA: nat -> ReadTimes, fromA: nat, a: seq<Step>,
      apiB: Api, timesB: nat -> ReadTimes, fromB: nat, b: seq<Step>)
    requires p < |clusters| == |a| && Walk(apiA, timesA, clusters, fromA, first, a)
    requires |b| + 1 == |a| && Walk(apiB, timesB, Without(clusters, p), fromB, first, b)
    requires Alike(Without(a, p), b)
    requires WithinLimit(AllReads(b[p..]), a[p].before, a[p].After())
    ensures PublishedBy(a, inputs)
            == PublishedBy(b[..p], inputs) + PublishedByOne(a[p], inputs) + PublishedBy(b[p..], inputs)
    ensures PublishedBy(b, inputs) == PublishedBy(b[..p], inputs) + PublishedBy(b[p..], inputs)
    ensures a[p].Snap().Raise? ==> PublishedByOne(a[p], inputs) == [] && SummaryOf(a, inputs) == SummaryOf(b, inputs)
  {
    hide Walk, Alike, AllKept, AllReads, WithinLimit, NewestOf, SameSnapshots, Step.After, Step.Snap, PublishedBy, SummaryOf,
         ClusterPublications;
    FailedIterationIsFelt(clusters, p, first, apiA, timesA, fromA, a, apiB, timesB, fromB, b);
    AlikeSplit(a, b, p);
    SameKeptSameSnapshots(a[..p], b[..p]);
    SameKeptSameSnapshots(a[p + 1..], b[p..]);
    SameSnapshotsPublish(a[..p], b[..p], inputs);
    SameSnapshotsPublish(a[p + 1..], b[p..], inputs);
    PublishedAround(a, p, inputs);
    PublishedJoin(b[..p], b[p..], inputs);
    assert b[..p] + b[p..] == b;
    if a[p].Snap().Raise? {
      FailedCountsNothing(a, p, inputs);
      JoinSame(a[..p], a[p + 1..], b[..p], b[p..]);
      SameSnapshotsPublish(Without(a, p), b, inputs);
    }
  }

  lemma {:induction false} JoinSame(a: seq<Step>, a': seq<Step>, b: seq<Step>, b': seq<Step>)
    requires SameSnapshots(a, b) && SameSnapshots(a', b')
    ensures SameSnapshots(a + a', b + b')
  {
    hide Step.Snap;
  }
}
