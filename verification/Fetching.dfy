/** Reading one cluster's snapshot: listings, properties, then stats of powered-on objects (app/traversal.py). */
module Fetching {
  import opened Common
  import opened Constants
  import opened Server
  import opened SuiteApi
  import opened BulkReads
  import opened BulkTheorems
  import opened Inventory
  import opened Traversal
  import opened Gathering
  import opened GatherTheorems

  // ----- listings -----

  /** The VM listings of the hosts. A repeated host id keeps its last listing. */
  method ListVms(api: Api, stats: CallStats, hosts: seq<Resource>) returns (r: Outcome<Listing>)
    requires stats.Valid()
    modifies stats`calls, stats`failures, stats`log
    ensures stats.Valid()
    ensures var replies := ChildReplies(api, old(stats.calls), hosts);
      && r == ListingOf(hosts, replies)
      && stats.log == old(stats.log) + Outcomes(replies[..Sent(replies)])
  {
    hide *;
    LogIsCalls(stats);
    ghost var start, replies := stats.log, ChildReplies(api, stats.calls, hosts);
    var l := Listing(map[], []);
    ListingStart(hosts, replies);
    for i := 0 to |hosts|
      invariant stats.Valid() && |stats.log| == |start| + i
      invariant stats.log == start + Outcomes(replies[..i])
      invariant forall j :: 0 <= j < i ==> !Raises(replies[j])
      invariant ListingOf(hosts[..i], replies[..i]) == Value(l)
    {
      LogIsCalls(stats);
      assert api.children(stats.calls, hosts[i].id) == replies[i];
      ListingStep(hosts, replies, i);
      var listing := FetchChildrenOfKind(api, stats, hosts[i].id, VmKind);
      if listing.Raise? {
        return Raise(listing.error);
      }
      l := WithListing(l, hosts[i].id, listing.value);
    }
    return Value(l);
  }

  lemma ListingStart(hosts: seq<Resource>, replies: seq<Reply<seq<Child>>>)
    requires |hosts| == |replies|
    ensures Outcomes(replies[..0]) == [] && ListingOf(hosts[..0], replies[..0]) == Value(Listing(map[], []))
    ensures hosts[..|hosts|] == hosts && replies[..|hosts|] == replies
    ensures (forall j :: 0 <= j < |replies| ==> !Raises(replies[j])) ==> Sent(replies) == |replies|
  {
    if forall j :: 0 <= j < |replies| ==> !Raises(replies[j]) {
      SentIs(replies, |replies|);
    }
  }

  /** One more listing. */
  lemma ListingStep(hosts: seq<Resource>, replies: seq<Reply<seq<Child>>>, i: nat)
    requires i < |hosts| == |replies| && forall j :: 0 <= j < i ==> !Raises(replies[j])
    requires ListingOf(hosts[..i], replies[..i]).Value?
    ensures Outcomes(replies[..i + 1]) == Outcomes(replies[..i]) + [Succeeded(replies[i])]
    ensures Raises(replies[i]) <==> replies[i].Raised? || replies[i].Malformed?
    ensures var before, after := ListingOf(hosts[..i], replies[..i]).value, ListingOf(hosts[..i + 1], replies[..i + 1]);
      match replies[i]
      case Body(children) => after == Value(WithListing(before, hosts[i].id, OfKind(children, VmKind)))
      case NotOk => after == Value(WithListing(before, hosts[i].id, []))
      case Raised => Sent(replies) == i + 1 && ListingOf(hosts, replies) == Raise(OtherError)
      case Malformed => Sent(replies) == i + 1 && ListingOf(hosts, replies) == Raise(OtherError)
  {
    hide OfKind, WithListing;
    assert hosts[..i + 1][..i] == hosts[..i] && replies[..i + 1][..i] == replies[..i];
    if Raises(replies[i]) {
      ListingRaises(hosts, replies, i + 1);
      SentIs(replies, i + 1);
    }
  }

  lemma {:induction false} ListingRaises(hosts: seq<Resource>, replies: seq<Reply<seq<Child>>>, n: nat)
    requires n <= |hosts| == |replies| && ListingOf(hosts[..n], replies[..n]) == Raise(OtherError)
    ensures ListingOf(hosts, replies) == Raise(OtherError)
  {
    if n == |hosts| {
      assert hosts[..n] == hosts && replies[..n] == replies;
    } else {
      var m := |hosts| - 1;
      assert hosts[..m][..n] == hosts[..n] && replies[..m][..n] == replies[..n];
      ListingRaises(hosts[..m], replies[..m], n);
    }
  }

  // ----- properties -----

  /** The properties of all hosts, then of all VMs. */
  method ReadProps(api: Api, stats: CallStats, hostIds: seq<Id>, vmIds: seq<Id>) returns (r: Outcome<map<(Id, string), string>>)
    requires stats.Valid()
    modifies stats`calls, stats`failures, stats`log
    ensures stats.Valid()
    ensures var run := AllProps(api, hostIds, vmIds, old(stats.calls));
      r == run.found && stats.log == old(stats.log) + run.outcomes
  {
    hide *;
    LogIsCalls(stats);
    AllPropsIs(api, hostIds, vmIds, stats.calls);
    var hosts := ReadSomeProps(api, stats, hostIds, HOST_PROPERTY_KEYS);
    if hosts.Raise? {
      return hosts;
    }
    LogIsCalls(stats);
    var vms := ReadSomeProps(api, stats, vmIds, VM_PROPERTY_KEYS);
    if vms.Raise? {
      return vms;
    }
    return Value(hosts.value + vms.value);
  }

  /** One bulk properties read; no request is sent for no ids. */
  method ReadSomeProps(api: Api, stats: CallStats, ids: seq<Id>, keys: seq<string>) returns (r: Outcome<map<(Id, string), string>>)
    requires stats.Valid()
    modifies stats`calls, stats`failures, stats`log
    ensures stats.Valid()
    ensures var run := OneProps(api, ids, keys, old(stats.calls));
      r == run.found && stats.log == old(stats.log) + run.outcomes
  {
    hide *;
    OnePropsIs(api, ids, keys, stats.calls);
    if ids == [] {
      return Value(map[]);
    }
    r := BulkLatestProperties(api, stats, ids, keys);
  }

  lemma OnePropsIs(api: Api, ids: seq<Id>, keys: seq<string>, call: nat)
    ensures var replies := PropReplies(api, call, Chunks(ids), keys);
      && OneProps(api, ids, keys, call) == PropsRun(ReadChunks(replies, PropExtract(keys)), Outcomes(replies[..Sent(replies)]))
      && (ids == [] ==> OneProps(api, ids, keys, call) == PropsRun(Value(map[]), []))
  {
    hide PropExtract;
    NoChunks();
  }

  lemma AllPropsIs(api: Api, hostIds: seq<Id>, vmIds: seq<Id>, call: nat)
    ensures var hosts := OneProps(api, hostIds, HOST_PROPERTY_KEYS, call);
      var vms := OneProps(api, vmIds, VM_PROPERTY_KEYS, call + |hosts.outcomes|);
      AllProps(api, hostIds, vmIds, call)
      == if hosts.found.Raise? then hosts
         else PropsRun(if vms.found.Raise? then vms.found else Value(hosts.found.value + vms.found.value), hosts.outcomes + vms.outcomes)
  {
    hide OneProps, HOST_PROPERTY_KEYS, VM_PROPERTY_KEYS;
  }

  // ----- stats -----

  /** One bulk stats read on top of a stats table; no request is sent for no ids. */
  method ReadIfAny(api: Api, stats: CallStats, nowMs: int, ids: seq<Id>, keys: seq<string>, before: map<SampleKey, real>)
    returns (r: Outcome<map<SampleKey, real>>)
    requires stats.Valid()
    modifies stats
    ensures stats.Valid()
    ensures var run := OneStats(api, ids, keys, nowMs, old(stats.calls));
      && stats.log == old(stats.log) + run.outcomes
      && stats.newestMs == Reference(run.run, old(stats.newestMs))
      && r == if run.raised then Raise(OtherError) else Value(before + JoinAll(Kept(run.run, old(stats.newestMs))))
  {
    hide *;
    OneStatsIs(api, ids, keys, nowMs, stats.calls, stats.newestMs);
    NothingMore(before);
    if ids == [] {
      return Value(before);
    }
    var found := BulkLatestStats(api, stats, nowMs, ids, keys);
    if found.Raise? {
      return found;
    }
    return Value(before + found.value);
  }

  lemma OneStatsIs(api: Api, ids: seq<Id>, keys: seq<string>, nowMs: int, call: nat, newestMs: int)
    ensures var replies := StatReplies(api, call, Chunks(ids), keys);
      var picked := ReadChunks(replies, StatExtract(keys));
      var run := OneStats(api, ids, keys, nowMs, call);
      && run.raised == picked.Raise? && run.outcomes == Outcomes(replies[..Sent(replies)])
      && (picked.Raise? ==> picked == Raise(OtherError) && Reference(run.run, newestMs) == newestMs)
      && (picked.Value? ==>
            && Reference(run.run, newestMs) == Newest(newestMs, picked.value)
            && JoinAll(Kept(run.run, newestMs)) == Fresh(picked.value, Newest(newestMs, picked.value), nowMs))
      && (ids == [] ==>
            !run.raised && run.outcomes == [] && Reference(run.run, newestMs) == newestMs
            && JoinAll(Kept(run.run, newestMs)) == map[])
  {
    hide Newest, Fresh, StatExtract;
    var replies := StatReplies(api, call, Chunks(ids), keys);
    var picked := ReadChunks(replies, StatExtract(keys));
    RaisedError(replies, StatExtract(keys));
    if picked.Value? {
      OneKept(Read(picked.value, nowMs), newestMs);
    }
    if ids == [] {
      NoChunks();
      NothingRead(newestMs, nowMs);
    }
  }

  lemma OneKept(read: Read, newestMs: int)
    ensures Reference([read], newestMs) == Newest(newestMs, read.picked)
    ensures JoinAll(Kept([read], newestMs)) == Fresh(read.picked, Newest(newestMs, read.picked), read.nowMs)
  {
    hide Newest, Fresh;
    assert [read][..0] == [];
    assert Reference([], newestMs) == newestMs && Kept([], newestMs) == [];
    assert Reference([read], newestMs) == Newest(newestMs, read.picked);
    var kept := Fresh(read.picked, Newest(newestMs, read.picked), read.nowMs);
    assert Kept([read], newestMs) == [kept];
    assert [kept][..0] == [];
    assert map[] + kept == kept;
  }

  /** Reading nothing changes nothing, so the `if ids` guards of the reads do not matter. */
  lemma NothingRead(newestMs: int, nowMs: int)
    ensures Newest(newestMs, map[]) == newestMs && Fresh(map[], newestMs, nowMs) == map[]
  {
  }

  lemma NothingMore(before: map<SampleKey, real>)
    ensures before + map[] == before && map[] + before == before
  {
  }

  /** The stats of the cluster, its hosts and its powered-on VMs, each read judged against the newest sample so far. */
  method ReadAllStats(api: Api, stats: CallStats, now: ReadTimes, clusterId: Id, hostIds: seq<Id>, onIds: seq<Id>)
    returns (r: Outcome<map<SampleKey, real>>)
    requires stats.Valid()
    modifies stats
    ensures stats.Valid()
    ensures var run := AllStats(api, clusterId, hostIds, onIds, now, old(stats.calls));
      && stats.log == old(stats.log) + run.outcomes
      && stats.newestMs == Reference(run.run, old(stats.newestMs))
      && r == if run.raised then Raise(OtherError) else Value(JoinAll(Kept(run.run, old(stats.newestMs))))
  {
    hide *;
    LogIsCalls(stats);
    ghost var call, start := stats.calls, stats.newestMs;
    ghost var one := OneStats(api, [clusterId], CLUSTER_STATKEYS, now.cluster, call);
    AllStatsIs(api, clusterId, hostIds, onIds, now, call);
    NothingMore(JoinAll(Kept(one.run, start)));
    var own := ReadIfAny(api, stats, now.cluster, [clusterId], CLUSTER_STATKEYS, map[]);
    if own.Raise? {
      return own;
    }
    LogIsCalls(stats);
    ghost var two := OneStats(api, hostIds, HOST_STATKEYS, now.hosts, stats.calls);
    var hosts := ReadIfAny(api, stats, now.hosts, hostIds, HOST_STATKEYS, own.value);
    RunsJoin(one, two, start);
    if hosts.Raise? {
      return hosts;
    }
    LogIsCalls(stats);
    ghost var three := OneStats(api, onIds, VM_STATKEYS, now.vms, stats.calls);
    r := ReadIfAny(api, stats, now.vms, onIds, VM_STATKEYS, hosts.value);
    RunsJoin(ThenRun(one, two), three, start);
  }

  lemma AllStatsIs(api: Api, clusterId: Id, hostIds: seq<Id>, onIds: seq<Id>, now: ReadTimes, call: nat)
    ensures var one := OneStats(api, [clusterId], CLUSTER_STATKEYS, now.cluster, call);
      var two := OneStats(api, hostIds, HOST_STATKEYS, now.hosts, call + |one.outcomes|);
      var both := ThenRun(one, two);
      var three := OneStats(api, onIds, VM_STATKEYS, now.vms, call + |both.outcomes|);
      AllStats(api, clusterId, hostIds, onIds, now, call)
      == if one.raised then one else if both.raised then both else ThenRun(both, three)
  {
    hide OneStats, ThenRun, CLUSTER_STATKEYS, HOST_STATKEYS, VM_STATKEYS;
  }

  /** Two runs as one. */
  lemma RunsJoin(first: StatsRun, second: StatsRun, start: int)
    ensures var both := ThenRun(first, second);
      && both.outcomes == first.outcomes + second.outcomes && both.raised == second.raised
      && Reference(both.run, start) == Reference(second.run, Reference(first.run, start))
      && JoinAll(Kept(both.run, start))
         == JoinAll(Kept(first.run, start)) + JoinAll(Kept(second.run, Reference(first.run, start)))
  {
    ReadsAfter(first.run, second.run, start);
    JoinAfter(Kept(first.run, start), Kept(second.run, Reference(first.run, start)));
  }

  lemma {:induction false} JoinAfter(first: seq<map<SampleKey, real>>, second: seq<map<SampleKey, real>>)
    ensures JoinAll(first + second) == JoinAll(first) + JoinAll(second)
  {
    if second == [] {
      assert first + second == first;
      NothingMore(JoinAll(first));
    } else {
      var n := |second| - 1;
      assert (first + second)[..|first| + n] == first + second[..n];
      JoinAfter(first, second[..n]);
      MergeAssociates(JoinAll(first), JoinAll(second[..n]), second[n]);
    }
  }

  // ----- one cluster -----

  /**
   One cluster's snapshot, for every server: what its replies say of the listings and properties, with
   the stats that are fresh against the newest sample known before and during the read. Whether it raises or not,
   every completed stats read has left its newest sample.
   */
  method FetchClusterSnapshot(api: Api, stats: CallStats, now: ReadTimes, clusterId: Id) returns (r: Outcome<Snapshot>)
    requires stats.Valid()
    modifies stats
    ensures stats.Valid()
    ensures var g := Gather(api, clusterId, old(stats.calls), now);
      && r == Judged(g, old(stats.newestMs))
      && stats.log == old(stats.log) + g.outcomes
      && stats.newestMs == Reference(g.run, old(stats.newestMs))
  {
    hide *;
    LogIsCalls(stats);
    ghost var call, start := stats.calls, stats.newestMs;
    GatherIs(api, clusterId, call, now, start);
    var hosts := FetchChildrenOfKind(api, stats, clusterId, HostKind);
    if hosts.Raise? {
      return Raise(hosts.error);
    }
    r := FetchBelow(api, stats, now, clusterId, hosts.value);
  }

  lemma GatherIs(api: Api, clusterId: Id, call: nat, now: ReadTimes, newestMs: int)
    ensures var reply := api.children(call, clusterId);
      var hosts := if reply.Body? then OfKind(reply.body, HostKind) else [];
      var g, below := Gather(api, clusterId, call, now), GatherBelow(api, clusterId, hosts, call + 1, now);
      if reply.Raised? || reply.Malformed? then
        g.outcomes == [Succeeded(reply)] && Judged(g, newestMs) == Raise(OtherError) && Reference(g.run, newestMs) == newestMs
      else
        && g.outcomes == [Succeeded(reply)] + below.outcomes
        && Judged(g, newestMs) == Judged(below, newestMs) && Reference(g.run, newestMs) == Reference(below.run, newestMs)
  {
    hide GatherBelow, JoinAll, Kept, OfKind;
  }

  /** Everything below the cluster's own listing. */
  method FetchBelow(api: Api, stats: CallStats, now: ReadTimes, clusterId: Id, hosts: seq<Resource>) returns (r: Outcome<Snapshot>)
    requires stats.Valid()
    modifies stats
    ensures stats.Valid()
    ensures var g := GatherBelow(api, clusterId, hosts, old(stats.calls), now);
      && r == Judged(g, old(stats.newestMs))
      && stats.log == old(stats.log) + g.outcomes
      && stats.newestMs == Reference(g.run, old(stats.newestMs))
  {
    hide *;
    LogIsCalls(stats);
    ghost var call, start := stats.calls, stats.newestMs;
    GatherBelowIs(api, clusterId, hosts, call, now, start);
    var l := ListVms(api, stats, hosts);
    if l.Raise? {
      return Raise(l.error);
    }
    LogIsCalls(stats);
    GatherReadIs(api, clusterId, hosts, l.value, stats.calls, now, start);
    var hostIds := IdsOf(hosts);
    var vmIds := VmIds(l.value.order, l.value.vms);
    var props := ReadProps(api, stats, hostIds, vmIds);
    if props.Raise? {
      return Raise(props.error);
    }
    LogIsCalls(stats);
    KeepsHosts(l.value, props.value);
    GatherStatsIs(api, clusterId, hosts, l.value, props.value, stats.calls, now, start);
    var vmsByHost := Filtered(l.value.vms, props.value);
    var onIds := VmIds(l.value.order, vmsByHost);
    var table := ReadAllStats(api, stats, now, clusterId, hostIds, onIds);
    if table.Raise? {
      return Raise(table.error);
    }
    return Value(Snapshot(clusterId, hosts, vmsByHost, table.value, props.value, |vmIds| - |onIds|));
  }

  lemma KeepsHosts(l: Listing, props: map<(Id, string), string>)
    requires forall h :: h in l.order ==> h in l.vms
    ensures forall h :: h in l.order ==> h in Filtered(l.vms, props)
  {
  }

  lemma GatherBelowIs(api: Api, clusterId: Id, hosts: seq<Resource>, call: nat, now: ReadTimes, newestMs: int)
    ensures var replies := ChildReplies(api, call, hosts);
      var l, outcomes := ListingOf(hosts, replies), Outcomes(replies[..Sent(replies)]);
      var g := GatherBelow(api, clusterId, hosts, call, now);
      if l.Raise? then
        g.outcomes == outcomes && Judged(g, newestMs) == Raise(l.error) && Reference(g.run, newestMs) == newestMs
      else
        var rest := GatherRead(api, clusterId, hosts, l.value, call + |outcomes|, now);
        && g.outcomes == outcomes + rest.outcomes
        && Judged(g, newestMs) == Judged(rest, newestMs) && Reference(g.run, newestMs) == Reference(rest.run, newestMs)
  {
    hide GatherRead, JoinAll, Kept, ListingOf, Outcomes, Sent;
  }

  lemma GatherReadIs(api: Api, clusterId: Id, hosts: seq<Resource>, l: Listing, call: nat, now: ReadTimes, newestMs: int)
    requires forall h :: h in l.order ==> h in l.vms
    ensures var props := AllProps(api, IdsOf(hosts), VmIds(l.order, l.vms), call);
      var g := GatherRead(api, clusterId, hosts, l, call, now);
      if props.found.Raise? then
        g.outcomes == props.outcomes && Judged(g, newestMs) == Raise(props.found.error) && Reference(g.run, newestMs) == newestMs
      else
        var rest := GatherStats(api, clusterId, hosts, l, props.found.value, call + |props.outcomes|, now);
        && g.outcomes == props.outcomes + rest.outcomes
        && Judged(g, newestMs) == Judged(rest, newestMs) && Reference(g.run, newestMs) == Reference(rest.run, newestMs)
  {
    hide GatherStats, JoinAll, Kept, AllProps, IdsOf, VmIds;
  }

  lemma GatherStatsIs(api: Api, clusterId: Id, hosts: seq<Resource>, l: Listing, props: map<(Id, string), string>,
                      call: nat, now: ReadTimes, newestMs: int)
    requires forall h :: h in l.order ==> h in l.vms
    requires forall h :: h in l.order ==> h in Filtered(l.vms, props)
    ensures var kept := Filtered(l.vms, props);
      var onIds := VmIds(l.order, kept);
      var run := AllStats(api, clusterId, IdsOf(hosts), onIds, now, call);
      var g := GatherStats(api, clusterId, hosts, l, props, call, now);
      && g.outcomes == run.outcomes && g.run == run.run
      && Judged(g, newestMs)
         == if run.raised then Raise(OtherError)
            else Value(Snapshot(clusterId, hosts, kept, JoinAll(Kept(run.run, newestMs)), props,
                                |VmIds(l.order, l.vms)| - |onIds|))
  {
    hide AllStats, JoinAll, Kept, IdsOf, VmIds, Filtered;
  }
}
