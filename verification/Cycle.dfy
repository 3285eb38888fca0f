/** A whole collection cycle: inventory, the isolated cluster loop, and the verdict (app/adapter.py). */
module Cycle {
  import opened Common
  import opened Constants
  import opened Server
  import opened SuiteApi
  import opened Inventory
  import opened Traversal
  import opened BulkTheorems
  import opened Gathering
  import opened Adapter

  // ----- the verdict -----

  /** Failures after a prefix of successful requests: at most the requests since, and all of them only if each one failed. */
  lemma {:induction false} FailuresSince(log: seq<bool>, from: nat)
    requires from <= |log| && forall i :: 0 <= i < from ==> log[i]
    ensures Failures(log) <= |log| - from
    ensures Failures(log) == |log| - from <==> forall i :: from <= i < |log| ==> !log[i]
  {
    var n := |log| - 1;
    if from == |log| {
      if log != [] {
        FailuresSince(log[..n], n);
      }
    } else {
      FailuresSince(log[..n], from);
      assert forall i :: from <= i < n ==> log[i] == log[..n][i];
    }
  }

  /** Requests were made since `from`, and every one of them failed. */
  ghost predicate AllFailedSince(log: seq<bool>, from: nat) {
    from < |log| && forall i :: from <= i < |log| ==> !log[i]
  }

  /** Sets the error of a cycle in which nothing usable was collected, and only of such a cycle. */
  method ReportFailures(result: CollectResult, stats: CallStats, clusterCount: nat, failedClusters: seq<string>, inventoryCalls: nat)
    requires stats.Valid() && inventoryCalls <= |stats.log|
    requires forall i :: 0 <= i < inventoryCalls ==> stats.log[i]
    modifies result`error
    ensures result.error ==
      if clusterCount > 0 && |failedClusters| == clusterCount then Some(AllClustersFailed(clusterCount))
      else if AllFailedSince(stats.log, inventoryCalls) then Some(EveryCallFailed(|stats.log| - inventoryCalls))
      else old(result.error)
  {
    FailuresSince(stats.log, inventoryCalls);
    if clusterCount > 0 && |failedClusters| == clusterCount {
      result.error := Some(AllClustersFailed(clusterCount));
    } else if stats.calls > inventoryCalls && stats.failures == stats.calls - inventoryCalls {
      result.error := Some(EveryCallFailed(stats.failures));
    }
  }

  // ----- the cluster loop -----

  /** One iteration: its first request, the newest sample known then, and what the replies to it say. */
  datatype Step = Step(call: nat, before: int, gathered: Gathered) {
    /** The number of its first stats request, if it comes that far. */
    function StatsFrom(): nat {
      call + gathered.before
    }

    /** The number of the first request after it. */
    function End(): nat {
      call + |gathered.outcomes|
    }

    /** The newest sample known after it, whether it raised or not. */
    ghost function After(): int {
      Reference(gathered.run, before)
    }

    /** The snapshot it read. */
    ghost function Snap(): Outcome<Snapshot> {
      Judged(gathered, before)
    }
  }

  /** What every iteration is given. */
  datatype Inputs = Inputs(monster: MonsterVmSettings, parse: string -> Option<real>, natives: Natives)

  /** The iteration raised: reading its snapshot did, or a lookup part of the way through publishing it. */
  ghost predicate Lost(step: Step, natives: Natives) {
    step.Snap().Raise? || Interrupted(step.Snap().value, natives)
  }

  ghost function FailedNames(clusters: seq<Resource>, steps: seq<Step>, natives: Natives): seq<string>
    requires |steps| <= |clusters|
  {
    if steps == [] then []
    else
      var n := |steps| - 1;
      FailedNames(clusters, steps[..n], natives) + if Lost(steps[n], natives) then [clusters[n].name] else []
  }

  /** What one iteration leaves published. */
  ghost function PublishedByOne(step: Step, inputs: Inputs): seq<Publication> {
    if step.Snap().Raise? then []
    else ClusterPublications(step.Snap().value, inputs.monster, inputs.parse, inputs.natives)
  }

  ghost function PublishedBy(steps: seq<Step>, inputs: Inputs): seq<Publication> {
    if steps == [] then []
    else PublishedBy(steps[..|steps| - 1], inputs) + PublishedByOne(steps[|steps| - 1], inputs)
  }

  ghost function SummaryAfter(s: Summary, step: Step, inputs: Inputs): Summary {
    if step.Snap().Raise? then s
    else TotalsAfter(s, step.Snap().value, inputs.monster, inputs.parse, inputs.natives)
  }

  ghost function SummaryOf(steps: seq<Step>, inputs: Inputs): Summary {
    if steps == [] then Summary(0, 0, 0, 0, 0)
    else SummaryAfter(SummaryOf(steps[..|steps| - 1], inputs), steps[|steps| - 1], inputs)
  }

  // ----- the run of the loop, decided by the replies and the clock -----

  /** The number of the first request after some iterations. */
  function EndOf(steps: seq<Step>, from: nat): nat {
    if steps == [] then from else steps[|steps| - 1].End()
  }

  /** The newest sample known after some iterations. */
  ghost function NewestOf(steps: seq<Step>, first: int): int {
    if steps == [] then first else steps[|steps| - 1].After()
  }

  /** Iteration i starts where the one before it ended, from the newest sample that one left, raised or not. */
  ghost predicate StepAt(api: Api, times: nat -> ReadTimes, clusters: seq<Resource>, from: nat, first: int, steps: seq<Step>, i: nat)
    requires i < |steps| <= |clusters|
  {
    && steps[i].call == EndOf(steps[..i], from)
    && steps[i].before == NewestOf(steps[..i], first)
    && steps[i].gathered == Gather(api, clusters[i].id, steps[i].call, times(steps[i].call))
  }

  /** The run of the loop over these clusters. */
  ghost predicate Walk(api: Api, times: nat -> ReadTimes, clusters: seq<Resource>, from: nat, first: int, steps: seq<Step>) {
    |steps| <= |clusters| && forall i :: 0 <= i < |steps| ==> StepAt(api, times, clusters, from, first, steps, i)
  }

  /** The outcomes of the iterations' requests, from number `from` on. */
  function OutcomesOf(steps: seq<Step>): seq<bool> {
    if steps == [] then [] else OutcomesOf(steps[..|steps| - 1]) + steps[|steps| - 1].gathered.outcomes
  }

  /** What one more iteration adds. */
  lemma {:induction false} OneMore(clusters: seq<Resource>, steps: seq<Step>, step: Step, inputs: Inputs)
    requires |steps| < |clusters|
    ensures FailedNames(clusters, steps + [step], inputs.natives)
            == FailedNames(clusters, steps, inputs.natives) + if Lost(step, inputs.natives) then [clusters[|steps|].name] else []
    ensures PublishedBy(steps + [step], inputs) == PublishedBy(steps, inputs) + PublishedByOne(step, inputs)
    ensures SummaryOf(steps + [step], inputs) == SummaryAfter(SummaryOf(steps, inputs), step, inputs)
    ensures OutcomesOf(steps + [step]) == OutcomesOf(steps) + step.gathered.outcomes
  {
    hide PublishedByOne, SummaryAfter, Lost;
    assert (steps + [step])[..|steps|] == steps;
  }

  lemma {:induction false} OneMoreStep(api: Api, times: nat -> ReadTimes, clusters: seq<Resource>, from: nat, first: int,
                                       steps: seq<Step>, step: Step)
    requires Walk(api, times, clusters, from, first, steps) && |steps| < |clusters|
    requires step.call == EndOf(steps, from) && step.before == NewestOf(steps, first)
    requires step.gathered == Gather(api, clusters[|steps|].id, step.call, times(step.call))
    ensures Walk(api, times, clusters, from, first, steps + [step])
    ensures EndOf(steps + [step], from) == step.call + |step.gathered.outcomes|
    ensures NewestOf(steps + [step], first) == Reference(step.gathered.run, step.before)
  {
    hide Gather, EndOf, NewestOf;
    var n, next := |steps|, steps + [step];
    forall i | 0 <= i < |next| ensures StepAt(api, times, clusters, from, first, next, i) {
      assert next[..n] == steps;
      if i < n {
        assert StepAt(api, times, clusters, from, first, steps, i) && next[..i] == steps[..i];
      }
    }
    LastStep(steps, step, from, first);
  }

  lemma LastStep(steps: seq<Step>, step: Step, from: nat, first: int)
    ensures EndOf(steps + [step], from) == step.call + |step.gathered.outcomes|
    ensures NewestOf(steps + [step], first) == Reference(step.gathered.run, step.before)
  {
  }

  lemma AsPublished(step: Step, s: Summary, inputs: Inputs)
    ensures var snap := Judged(step.gathered, step.before);
      && PublishedByOne(step, inputs)
         == (if snap.Raise? then [] else ClusterPublications(snap.value, inputs.monster, inputs.parse, inputs.natives))
      && SummaryAfter(s, step, inputs)
         == (if snap.Raise? then s else TotalsAfter(s, snap.value, inputs.monster, inputs.parse, inputs.natives))
      && (Lost(step, inputs.natives) <==> snap.Raise? || Interrupted(snap.value, inputs.natives))
  {
    hide ClusterPublications, TotalsAfter, Interrupted, Judged;
  }

  /**
   The loop over the clusters. An iteration that raises adds its cluster's name, and leaves published
   what it had published until then: it neither undoes what earlier iterations published nor stops
   later ones. It does leave them the newest sample that its completed reads saw.
   */
  method CollectClusters(api: Api, stats: CallStats, times: nat -> ReadTimes, result: CollectResult, clusters: seq<Resource>,
                         inputs: Inputs)
    returns (summary: Summary, failed: seq<string>, ghost steps: seq<Step>)
    requires stats.Valid() && result.Valid()
    modifies stats, result`objects, result`published, result.objects.Values
    ensures stats.Valid() && result.Valid()
    ensures |steps| == |clusters| && Walk(api, times, clusters, old(stats.calls), old(stats.newestMs), steps)
    ensures stats.log == old(stats.log) + OutcomesOf(steps)
    ensures stats.newestMs == NewestOf(steps, old(stats.newestMs))
    ensures failed == FailedNames(clusters, steps, inputs.natives)
    ensures result.published == old(result.published) + PublishedBy(steps, inputs)
    ensures summary == SummaryOf(steps, inputs)
  {
    hide *;
    summary, failed, steps := Summary(0, 0, 0, 0, 0), [], [];
    LogIsCalls(stats);
    ghost var log, from, first := stats.log, stats.calls, stats.newestMs;
    AtStart(api, times, clusters, from, first, inputs);
    for i := 0 to |clusters|
      invariant stats.Valid() && result.Valid() && fresh(result.objects.Values - old(result.objects.Values))
      invariant |steps| == i && Walk(api, times, clusters, from, first, steps)
      invariant stats.log == log + OutcomesOf(steps) && |stats.log| == EndOf(steps, from)
      invariant stats.newestMs == NewestOf(steps, first)
      invariant failed == FailedNames(clusters, steps, inputs.natives)
      invariant result.published == old(result.published) + PublishedBy(steps, inputs)
      invariant summary == SummaryOf(steps, inputs)
    {
      LogIsCalls(stats);
      ghost var step := Step(stats.calls, stats.newestMs, Gather(api, clusters[i].id, stats.calls, times(stats.calls)));
      AsPublished(step, summary, inputs);
      OneMoreStep(api, times, clusters, from, first, steps, step);
      OneMore(clusters, steps, step, inputs);
      var raised;
      raised, summary := CollectCluster(api, stats, times, result, clusters[i].id, inputs.monster, inputs.parse, inputs.natives, summary);
      steps := steps + [step];
      if raised {
        failed := failed + [clusters[i].name];
      }
    }
  }

  lemma AtStart(api: Api, times: nat -> ReadTimes, clusters: seq<Resource>, from: nat, first: int, inputs: Inputs)
    ensures Walk(api, times, clusters, from, first, []) && OutcomesOf([]) == []
    ensures EndOf([], from) == from && NewestOf([], first) == first
    ensures FailedNames(clusters, [], inputs.natives) == [] && PublishedBy([], inputs) == []
    ensures SummaryOf([], inputs) == Summary(0, 0, 0, 0, 0)
  {
  }

  // ----- the inventory -----

  /** The three inventory queries, one after the other, returned these clusters and native identities. */
  ghost predicate InventoryRead(api: Api, clusters: seq<Resource>, clusterKeys: map<Id, ResourceKey>,
                                hostKeys: map<Id, ResourceKey>, calls: nat) {
    exists first: nat, second: nat ::
      && ListedAs(api, ClusterKind, 0, first, clusters)
      && KeyedAs(api, ClusterKind, first, second, clusterKeys)
      && KeyedAs(api, HostKind, second, calls, hostKeys)
  }

  /** One of the three queries raised. */
  ghost predicate InventoryFails(api: Api, error: Exception) {
    || ListingFails(api, ClusterKind, 0, error)
    || (exists first: nat, clusters :: ListedAs(api, ClusterKind, 0, first, clusters) && QueryFails(api, ClusterKind, first, error))
    || (exists first: nat, second: nat, clusters, keys ::
          && ListedAs(api, ClusterKind, 0, first, clusters)
          && KeyedAs(api, ClusterKind, first, second, keys)
          && QueryFails(api, HostKind, second, error))
  }

  lemma ListedOnce(api: Api, kind: Kind, call: nat, after: nat, resources: seq<Resource>)
    requires ListedAs(api, kind, call, after, resources)
    ensures forall error :: !ListingFails(api, kind, call, error)
    ensures forall other: nat, others :: ListedAs(api, kind, call, other, others) ==> other == after && others == resources
  {
    hide CompleteRun, FailedRun, Named;
    var entries :| call < after && CompleteRun(api, kind, call, after - call, entries) && Named(entries) == Value(resources);
    OneRun(api, kind, call, after - call, entries);
  }

  lemma KeyedOnce(api: Api, kind: Kind, call: nat, after: nat, keys: map<Id, ResourceKey>)
    requires KeyedAs(api, kind, call, after, keys)
    ensures forall error :: !QueryFails(api, kind, call, error)
    ensures forall other: nat, others :: KeyedAs(api, kind, call, other, others) ==> other == after && others == keys
  {
    hide CompleteRun, FailedRun, KeysById;
    var entries :| call < after && CompleteRun(api, kind, call, after - call, entries) && KeysById(entries) == keys;
    OneRun(api, kind, call, after - call, entries);
  }

  /** The replies alone decide whether the inventory is read, and what it is. */
  lemma InventoryDecided(api: Api, clusters: seq<Resource>, clusterKeys: map<Id, ResourceKey>, hostKeys: map<Id, ResourceKey>,
                         calls: nat)
    requires InventoryRead(api, clusters, clusterKeys, hostKeys, calls)
    ensures forall error :: !InventoryFails(api, error)
    ensures forall others, otherClusterKeys, otherHostKeys, otherCalls ::
      InventoryRead(api, others, otherClusterKeys, otherHostKeys, otherCalls) ==>
        others == clusters && otherClusterKeys == clusterKeys && otherHostKeys == hostKeys && otherCalls == calls
  {
    hide ListedAs, KeyedAs, ListingFails, QueryFails;
    var first: nat, second: nat :|
      && ListedAs(api, ClusterKind, 0, first, clusters)
      && KeyedAs(api, ClusterKind, first, second, clusterKeys)
      && KeyedAs(api, HostKind, second, calls, hostKeys);
    ListedOnce(api, ClusterKind, 0, first, clusters);
    KeyedOnce(api, ClusterKind, first, second, clusterKeys);
    KeyedOnce(api, HostKind, second, calls, hostKeys);
  }

  /** One of the queries raised, and that one thing. */
  lemma InventoryFailsOnce(api: Api, a: Exception, b: Exception)
    requires InventoryFails(api, a) && InventoryFails(api, b)
    ensures a == b
  {
    hide ListedAs, KeyedAs, ListingFails, QueryFails;
    if first: nat, clusters :| ListedAs(api, ClusterKind, 0, first, clusters) {
      ListedOnce(api, ClusterKind, 0, first, clusters);
      if second: nat, keys :| KeyedAs(api, ClusterKind, first, second, keys) {
        KeyedOnce(api, ClusterKind, first, second, keys);
        QueryFailsOnce(api, HostKind, second, a, b);
      } else {
        QueryFailsOnce(api, ClusterKind, first, a, b);
      }
    } else {
      ListingFailsOnce(api, ClusterKind, 0, a, b);
    }
  }

  /** None of the three queries goes on for ever. */
  ghost predicate InventoryEnds(api: Api) {
    && Ends(api, ClusterKind, 0)
    && (forall first: nat, clusters :: ListedAs(api, ClusterKind, 0, first, clusters) ==> Ends(api, ClusterKind, first))
    && (forall first: nat, second: nat, clusters, keys ::
          ListedAs(api, ClusterKind, 0, first, clusters) && KeyedAs(api, ClusterKind, first, second, keys)
          ==> Ends(api, HostKind, second))
  }

  /** What the inventory queries found. */
  datatype Found = Found(clusters: seq<Resource>, clusterKeys: map<Id, ResourceKey>, hostKeys: map<Id, ResourceKey>)

  /** The inventory of a cycle; every one of its requests succeeded, or it raises. */
  method ReadInventory(api: Api, stats: CallStats) returns (r: Outcome<Found>)
    requires stats.Valid() && stats.log == []
    requires InventoryEnds(api)
    modifies stats`calls, stats`failures, stats`log
    ensures stats.Valid()
    ensures r.Value? ==> InventoryRead(api, r.value.clusters, r.value.clusterKeys, r.value.hostKeys, |stats.log|)
    ensures r.Value? ==> forall i :: 0 <= i < |stats.log| ==> stats.log[i]
    ensures r.Raise? ==> InventoryFails(api, r.error)
  {
    hide Ends, ListedAs, KeyedAs, ListingFails, QueryFails, Failures, CallStats.Valid;
    LogIsCalls(stats);
    var clusters :- FetchResources(api, stats, ClusterKind);
    ghost var first := stats.calls;
    var clusterKeys :- FetchResourceKeys(api, stats, ClusterKind);
    ghost var second := stats.calls;
    var hostKeys :- FetchResourceKeys(api, stats, HostKind);
    LogIsCalls(stats);
    return Value(Found(clusters, clusterKeys, hostKeys));
  }

  // ----- the cycle -----

  /** What a cycle went through. */
  datatype Trace =
    | InventoryLost(error: Exception)
    | Walked(clusters: seq<Resource>, inputs: Inputs, inventoryCalls: nat, steps: seq<Step>, summary: Summary)

  /**
   The inventory's requests, all of which succeeded, and then the run of the loop over its clusters from
   a reference of zero; these are all the requests of the cycle.
   */
  ghost predicate WalkedFrom(trace: Trace, api: Api, times: nat -> ReadTimes, log: seq<bool>) {
    && trace.Walked?
    && |trace.steps| == |trace.clusters|
    && Walk(api, times, trace.clusters, trace.inventoryCalls, 0, trace.steps)
    && trace.inventoryCalls <= |log|
    && (forall i :: 0 <= i < trace.inventoryCalls ==> log[i])
    && log[trace.inventoryCalls..] == OutcomesOf(trace.steps)
  }

  /** The inventory the replies give, and the cycle's run with it: everything about a trace is decided by the server and the clock. */
  ghost predicate TraceOf(trace: Trace, api: Api, times: nat -> ReadTimes, log: seq<bool>) {
    && WalkedFrom(trace, api, times, log)
    && InventoryRead(api, trace.clusters, trace.inputs.natives.clusterKeys, trace.inputs.natives.hostKeys, trace.inventoryCalls)
    && trace.summary == SummaryOf(trace.steps, trace.inputs)
  }

  /** Every iteration raised. */
  ghost predicate NoneCollected(steps: seq<Step>, natives: Natives) {
    forall i :: 0 <= i < |steps| ==> Lost(steps[i], natives)
  }

  /** The error of a cycle. */
  ghost function Verdict(trace: Trace, log: seq<bool>): Option<CollectError> {
    match trace
    case InventoryLost(error) => Some(if error == SuiteApiError then InventoryFailed else Unexpected)
    case Walked(clusters, inputs, inventoryCalls, steps, _) =>
      if clusters != [] && NoneCollected(steps, inputs.natives) then Some(AllClustersFailed(|clusters|))
      else if AllFailedSince(log, inventoryCalls) then Some(EveryCallFailed(|log| - inventoryCalls))
      else None
  }

  lemma {:induction false} FailedNamesCount(clusters: seq<Resource>, steps: seq<Step>, natives: Natives)
    requires |steps| <= |clusters|
    ensures |FailedNames(clusters, steps, natives)| == |LostSteps(steps, natives)|
    ensures |FailedNames(clusters, steps, natives)| <= |steps|
    ensures |FailedNames(clusters, steps, natives)| == |steps| <==> NoneCollected(steps, natives)
  {
    hide NoneCollected, LostSteps, Lost;
    if steps == [] {
      NothingLost(natives);
    } else {
      FailedNamesCount(clusters, steps[..|steps| - 1], natives);
      LostStep(steps, natives);
    }
  }

  /** The iterations that raised. */
  ghost function LostSteps(steps: seq<Step>, natives: Natives): set<int> {
    set i | 0 <= i < |steps| && Lost(steps[i], natives)
  }

  lemma NothingLost(natives: Natives)
    ensures LostSteps([], natives) == {} && NoneCollected([], natives)
  {
  }

  lemma LostStep(steps: seq<Step>, natives: Natives)
    requires steps != []
    ensures var n := |steps| - 1;
      && |LostSteps(steps, natives)| == |LostSteps(steps[..n], natives)| + (if Lost(steps[n], natives) then 1 else 0)
      && (NoneCollected(steps, natives) <==> NoneCollected(steps[..n], natives) && Lost(steps[n], natives))
  {
    hide Lost;
    var n := |steps| - 1;
    assert steps == steps[..n] + [steps[n]];
    assert LostSteps(steps, natives) == LostSteps(steps[..n], natives) + if Lost(steps[n], natives) then {n} else {};
  }

  /**
   A whole cycle. Its error is the verdict on its trace, and what it publishes is what its
   iterations publish, one after the other.
   */
  method Collect(api: Api, stats: CallStats, times: nat -> ReadTimes, cpuPct: Option<real>, memoryPct: Option<real>,
                 memoryCapGb: Option<real>, parse: string -> Option<real>, lookup: ResourceKey -> Lookup)
    returns (result: CollectResult, ghost trace: Trace)
    requires InventoryEnds(api)
    modifies stats
    ensures fresh(result) && result.Valid() && stats.Valid()
    ensures result.error == Verdict(trace, stats.log)
    ensures result.error == Some(InventoryFailed) <==> InventoryFails(api, SuiteApiError)
    ensures result.error == Some(Unexpected) <==> InventoryFails(api, OtherError)
    ensures result.error.Some? <==>
      || InventoryFails(api, SuiteApiError) || InventoryFails(api, OtherError)
      || (trace.Walked? && trace.clusters != [] && NoneCollected(trace.steps, trace.inputs.natives))
      || (trace.Walked? && AllFailedSince(stats.log, trace.inventoryCalls))
    ensures trace.InventoryLost? ==> InventoryFails(api, trace.error) && result.published == [] && result.objects == map[]
    ensures trace.Walked? ==> TraceOf(trace, api, times, stats.log)
    ensures trace.Walked? ==> trace.inputs == Inputs(SettingsOf(cpuPct, memoryPct, memoryCapGb), parse,
                                                     trace.inputs.natives.(lookup := lookup))
    ensures trace.Walked? ==> result.published == PublishedBy(trace.steps, trace.inputs)
    ensures trace.Walked? ==> stats.newestMs == NewestOf(trace.steps, 0)
  {
    hide InventoryEnds, InventoryRead, InventoryFails, CallStats.Valid, CollectResult.Valid, SettingsOf, Walk, OutcomesOf, NewestOf,
         FailedNames, PublishedBy, SummaryOf, NoneCollected, AllFailedSince;
    var monster := SettingsOf(cpuPct, memoryPct, memoryCapGb);
    result := new CollectResult();
    stats.Reset();
    NothingReadYet(stats);
    var found := ReadInventory(api, stats);
    if found.Raise? {
      result.error := Some(if found.error == SuiteApiError then InventoryFailed else Unexpected);
      trace := InventoryLost(found.error);
      OneFailure(api, found.error);
      return;
    }
    LogIsCalls(stats);
    InventoryDecided(api, found.value.clusters, found.value.clusterKeys, found.value.hostKeys, stats.calls);
    var inventoryCalls := stats.calls;
    var inputs := Inputs(monster, parse, Natives(found.value.clusterKeys, found.value.hostKeys, lookup));
    var summary, failed;
    ghost var steps;
    summary, failed, steps := CollectClusters(api, stats, times, result, found.value.clusters, inputs);
    trace := Walked(found.value.clusters, inputs, inventoryCalls, steps, summary);
    FailedNamesCount(found.value.clusters, steps, inputs.natives);
    ReportFailures(result, stats, |found.value.clusters|, failed, inventoryCalls);
  }

  lemma OneFailure(api: Api, error: Exception)
    requires InventoryFails(api, error)
    ensures forall other :: InventoryFails(api, other) ==> other == error
  {
    hide InventoryFails;
    forall other | InventoryFails(api, other) ensures other == error {
      InventoryFailsOnce(api, error, other);
    }
  }

  lemma NothingReadYet(stats: CallStats)
    requires stats.Valid() && stats.history == []
    ensures stats.newestMs == 0
  {
  }
}
