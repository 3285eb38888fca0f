/** What holds of reading one cluster, whatever the server answers. */
module GatherTheorems {
  import opened Common
  import opened Constants
  import opened Server
  import opened BulkReads
  import opened BulkTheorems
  import opened Inventory
  import opened Traversal
  import opened Gathering

  /** None of these requests succeeded. */
  ghost predicate NoneSucceeded(outcomes: seq<bool>) {
    forall i :: 0 <= i < |outcomes| ==> !outcomes[i]
  }

  /** Every VM that a snapshot counts is on, by the snapshot's own properties. */
  ghost predicate OnlyPoweredOn(snap: Snapshot) {
    forall h, v :: h in snap.vmsByHost && v in snap.vmsByHost[h] ==> IsOn(v.id, snap.props)
  }

  lemma {:induction false} PoweredOnMembers(vms: seq<Resource>, props: map<(Id, string), string>, v: Resource)
    ensures v in PoweredOn(vms, props) <==> v in vms && IsOn(v.id, props)
  {
    if vms != [] {
      var n := |vms| - 1;
      assert vms == vms[..n] + [vms[n]];
      PoweredOnMembers(vms[..n], props, v);
    }
  }

  /** Exactly the VMs that are on, each as often as it is listed, in the order of the listing. */
  lemma {:induction false} OnInOrder(first: seq<Resource>, second: seq<Resource>, v: Resource, props: map<(Id, string), string>)
    ensures PoweredOn(first + second, props) == PoweredOn(first, props) + PoweredOn(second, props)
    ensures PoweredOn([v], props) == if IsOn(v.id, props) then [v] else []
    ensures PoweredOn([], props) == []
  {
    hide IsOn;
    assert [v][..0] == [];
    if second == [] {
      assert first + second == first;
    } else {
      var n := |second| - 1;
      assert (first + second)[..|first| + n] == first + second[..n];
      OnInOrder(first, second[..n], v, props);
    }
  }

  /** A VM is on exactly when its power state reads so; a missing one is not. */
  lemma OnByPowerState(vmId: Id, props: map<(Id, string), string>)
    ensures IsOn(vmId, props) <==>
      (vmId, "summary|runtime|powerState") in props && props[(vmId, "summary|runtime|powerState")] == "Powered On"
  {
  }

  /** What a host's listing comes to: its VMs, or none when the request failed. */
  function ListedBy(reply: Reply<seq<Child>>): seq<Resource> {
    if reply.Body? then OfKind(reply.body, VmKind) else []
  }

  /** Just these hosts are listed, each with the VMs of its own last listing. */
  ghost predicate ListsLast(l: Listing, hosts: seq<Resource>, replies: seq<Reply<seq<Child>>>)
    requires |hosts| == |replies|
  {
    && (forall h :: h in l.vms <==> exists i :: 0 <= i < |hosts| && hosts[i].id == h)
    && forall i :: 0 <= i < |hosts| && hosts[i].id !in IdsOf(hosts[i + 1..]) ==>
         hosts[i].id in l.vms && l.vms[hosts[i].id] == ListedBy(replies[i])
  }

  /** The order has each listed host once. */
  ghost predicate InOrderOnce(l: Listing) {
    && (forall h :: h in l.order <==> h in l.vms)
    && forall i, j :: 0 <= i < j < |l.order| ==> l.order[i] != l.order[j]
  }

  /** Every host has the VMs of its own last listing, and is in the order once. */
  lemma {:induction false} LastListingWins(hosts: seq<Resource>, replies: seq<Reply<seq<Child>>>)
    requires |hosts| == |replies| && ListingOf(hosts, replies).Value?
    ensures ListsLast(ListingOf(hosts, replies).value, hosts, replies)
    ensures InOrderOnce(ListingOf(hosts, replies).value)
  {
    hide OfKind, ListsLast, InOrderOnce, WithListing;
    if hosts == [] {
      NothingListed();
    } else {
      var n := |hosts| - 1;
      LastListingWins(hosts[..n], replies[..n]);
      OneMoreListed(ListingOf(hosts[..n], replies[..n]).value, hosts, replies);
      OneMoreInOrder(ListingOf(hosts[..n], replies[..n]).value, hosts[n].id, ListedBy(replies[n]));
    }
  }

  lemma NothingListed()
    ensures ListsLast(Listing(map[], []), [], []) && InOrderOnce(Listing(map[], []))
  {
  }

  lemma OneMoreInOrder(before: Listing, h: Id, vms: seq<Resource>)
    requires InOrderOnce(before)
    ensures InOrderOnce(WithListing(before, h, vms))
  {
  }

  lemma OneMoreListed(before: Listing, hosts: seq<Resource>, replies: seq<Reply<seq<Child>>>)
    requires |hosts| == |replies| > 0 && ListsLast(before, hosts[..|hosts| - 1], replies[..|hosts| - 1])
    ensures ListsLast(WithListing(before, hosts[|hosts| - 1].id, ListedBy(replies[|hosts| - 1])), hosts, replies)
  {
    hide ListedBy, IdsOf;
    var n := |hosts| - 1;
    var init, last := hosts[..n], hosts[n].id;
    var l := WithListing(before, last, ListedBy(replies[n]));
    assert hosts == init + [hosts[n]];
    forall h ensures h in l.vms <==> exists i :: 0 <= i < |hosts| && hosts[i].id == h {
      if i :| 0 <= i < |init| && init[i].id == h {
        assert hosts[i].id == h;
      }
    }
    forall i | 0 <= i < |hosts| && hosts[i].id !in IdsOf(hosts[i + 1..])
      ensures hosts[i].id in l.vms && l.vms[hosts[i].id] == ListedBy(replies[i])
    {
      if i < n {
        IdsOfTail(hosts, i);
        assert init[i] == hosts[i] && replies[..n][i] == replies[i];
      }
    }
  }

  lemma IdsOfTail(hosts: seq<Resource>, i: nat)
    requires i < |hosts| - 1
    ensures var n := |hosts| - 1;
      hosts[i].id !in IdsOf(hosts[i + 1..]) ==> hosts[i].id !in IdsOf(hosts[..n][i + 1..]) && hosts[i].id != hosts[n].id
  {
    var n := |hosts| - 1;
    var tail, part := IdsOf(hosts[i + 1..]), IdsOf(hosts[..n][i + 1..]);
    assert tail[n - i - 1] == hosts[n].id;
    assert forall j :: 0 <= j < |part| ==> part[j] == tail[j];
  }

  /** The VMs are asked for host by host in the order of the hosts, and of each host in the order of its listing. */
  lemma {:induction false} VmsInOrder(first: seq<Id>, second: seq<Id>, h: Id, listings: map<Id, seq<Resource>>)
    requires h in listings && forall i :: i in first + second ==> i in listings
    ensures VmIds(first + second, listings) == VmIds(first, listings) + VmIds(second, listings)
    ensures VmIds([h], listings) == IdsOf(listings[h])
    ensures VmIds([], listings) == []
  {
    hide IdsOf;
    assert [h][..0] == [];
    if second == [] {
      assert first + second == first;
    } else {
      var n := |second| - 1;
      assert (first + second)[..|first| + n] == first + second[..n];
      VmsInOrder(first, second[..n], h, listings);
    }
  }

  // ----- how it begins, and where the stats begin -----

  /** The first request lists the cluster; the stats requests are the last ones, and there are some when the snapshot is read. */
  lemma GatherStarts(api: Api, clusterId: Id, call: nat, now: ReadTimes)
    ensures var g := Gather(api, clusterId, call, now);
      && 1 <= g.before <= |g.outcomes| && (g.shell.Value? ==> g.before < |g.outcomes|)
      && g.outcomes[0] == Succeeded(api.children(call, clusterId))
      && (g.shell.Value? ==> g.shell.value.clusterId == clusterId && OnlyPoweredOn(g.shell.value))
  {
    hide GatherBelow, OnlyPoweredOn, OfKind;
    var reply := api.children(call, clusterId);
    BelowStarts(api, clusterId, if reply.Body? then OfKind(reply.body, HostKind) else [], call + 1, now);
  }

  lemma BelowStarts(api: Api, clusterId: Id, hosts: seq<Resource>, call: nat, now: ReadTimes)
    ensures var g := GatherBelow(api, clusterId, hosts, call, now);
      && g.before <= |g.outcomes| && (g.shell.Value? ==> g.before < |g.outcomes|)
      && (g.shell.Value? ==> g.shell.value.clusterId == clusterId && OnlyPoweredOn(g.shell.value))
  {
    hide GatherRead, OnlyPoweredOn, ListingOf, Outcomes, Sent;
    var replies := ChildReplies(api, call, hosts);
    var outcomes := Outcomes(replies[..Sent(replies)]);
    if ListingOf(hosts, replies).Value? {
      ReadStarts(api, clusterId, hosts, ListingOf(hosts, replies).value, call + |outcomes|, now);
    }
  }

  lemma ReadStarts(api: Api, clusterId: Id, hosts: seq<Resource>, l: Listing, call: nat, now: ReadTimes)
    requires forall h :: h in l.order ==> h in l.vms
    ensures var g := GatherRead(api, clusterId, hosts, l, call, now);
      && g.before <= |g.outcomes| && (g.shell.Value? ==> g.before < |g.outcomes|)
      && (g.shell.Value? ==> g.shell.value.clusterId == clusterId && OnlyPoweredOn(g.shell.value))
  {
    hide GatherStats, OnlyPoweredOn, AllProps, VmIds, IdsOf;
    var props := AllProps(api, IdsOf(hosts), VmIds(l.order, l.vms), call);
    if props.found.Value? {
      StatsStart(api, clusterId, hosts, l, props.found.value, call + |props.outcomes|, now);
    }
  }

  lemma StatsStart(api: Api, clusterId: Id, hosts: seq<Resource>, l: Listing, props: map<(Id, string), string>, call: nat, now: ReadTimes)
    requires forall h :: h in l.order ==> h in l.vms
    ensures var g := GatherStats(api, clusterId, hosts, l, props, call, now);
      && g.before == 0 && |g.outcomes| > 0
      && (g.shell.Value? ==> g.shell.value.clusterId == clusterId && OnlyPoweredOn(g.shell.value))
  {
    hide OneStats, PoweredOn, VmIds, IdsOf, CLUSTER_STATKEYS, HOST_STATKEYS, VM_STATKEYS;
    SomeSent(api, [clusterId], CLUSTER_STATKEYS, now.cluster, call);
    OnlyOn(l.vms, props);
  }

  lemma SomeSent(api: Api, ids: seq<Id>, keys: seq<string>, nowMs: int, call: nat)
    requires ids != []
    ensures |OneStats(api, ids, keys, nowMs, call).outcomes| > 0
  {
    hide Chunks, StatReplies, Sent, ReadChunks;
    ChunksCover(ids);
  }

  lemma OnlyOn(listings: map<Id, seq<Resource>>, props: map<(Id, string), string>)
    ensures forall h, v :: h in Filtered(listings, props) && v in Filtered(listings, props)[h] ==> IsOn(v.id, props)
  {
    hide PoweredOn;
    forall h, v | h in Filtered(listings, props) && v in Filtered(listings, props)[h] ensures IsOn(v.id, props) {
      PoweredOnMembers(listings[h], props, v);
    }
  }

  // ----- nothing succeeded -----

  /** A read whose requests all failed, and none of which raised, picked nothing. */
  lemma {:induction false} NothingPicked<A(!new), V>(replies: seq<Reply<seq<Entry<A>>>>, extract: A -> map<string, V>)
    requires forall i :: 0 <= i < |replies| ==> !Outcomes(replies)[i]
    requires ReadChunks(replies, extract).Value?
    ensures ReadChunks(replies, extract) == Value(map[])
  {
    if replies != [] {
      var n := |replies| - 1;
      forall i | 0 <= i < n ensures !Outcomes(replies[..n])[i] {
        assert !Outcomes(replies)[i];
      }
      NothingPicked(replies[..n], extract);
      assert !Outcomes(replies)[n];
    }
  }

  /** All of these reads picked nothing. */
  ghost predicate NonePicked(run: seq<Read>) {
    forall i :: 0 <= i < |run| ==> run[i].picked == map[]
  }

  lemma {:induction false} NothingKept(run: seq<Read>, newestMs: int)
    requires NonePicked(run)
    ensures JoinAll(Kept(run, newestMs)) == map[]
  {
    if run != [] {
      var n := |run| - 1;
      assert forall i :: 0 <= i < n ==> run[..n][i] == run[i];
      NothingKept(run[..n], newestMs);
      assert Kept(run, newestMs)[..n] == Kept(run[..n], newestMs);
    }
  }

  lemma OneStatsNone(api: Api, ids: seq<Id>, keys: seq<string>, nowMs: int, call: nat)
    ensures var run := OneStats(api, ids, keys, nowMs, call);
      !run.raised && NoneSucceeded(run.outcomes) ==> NonePicked(run.run)
  {
    hide StatExtract, Chunks;
    var replies := StatReplies(api, call, Chunks(ids), keys);
    if ReadChunks(replies, StatExtract(keys)).Value? && NoneSucceeded(Outcomes(replies[..Sent(replies)])) {
      NotRaised(replies, StatExtract(keys));
      assert replies[..|replies|] == replies;
      NothingPicked(replies, StatExtract(keys));
    }
  }

  lemma {:induction false} NotRaised<A, V>(replies: seq<Reply<seq<Entry<A>>>>, extract: A -> map<string, V>)
    requires ReadChunks(replies, extract).Value?
    ensures forall i :: 0 <= i < |replies| ==> !Raises(replies[i])
    ensures Sent(replies) == |replies|
  {
    hide Sent;
    if replies != [] {
      var n := |replies| - 1;
      NotRaised(replies[..n], extract);
      assert forall i :: 0 <= i < n ==> replies[..n][i] == replies[i];
    }
    SentIs(replies, |replies|);
  }

  lemma AllStatsNone(api: Api, clusterId: Id, hostIds: seq<Id>, onIds: seq<Id>, now: ReadTimes, call: nat)
    ensures var run := AllStats(api, clusterId, hostIds, onIds, now, call);
      !run.raised && NoneSucceeded(run.outcomes) ==> NonePicked(run.run)
  {
    hide OneStats, NoneSucceeded, CLUSTER_STATKEYS, HOST_STATKEYS, VM_STATKEYS;
    var one := OneStats(api, [clusterId], CLUSTER_STATKEYS, now.cluster, call);
    OneStatsNone(api, [clusterId], CLUSTER_STATKEYS, now.cluster, call);
    var two := OneStats(api, hostIds, HOST_STATKEYS, now.hosts, call + |one.outcomes|);
    OneStatsNone(api, hostIds, HOST_STATKEYS, now.hosts, call + |one.outcomes|);
    var both := ThenRun(one, two);
    var three := OneStats(api, onIds, VM_STATKEYS, now.vms, call + |both.outcomes|);
    OneStatsNone(api, onIds, VM_STATKEYS, now.vms, call + |both.outcomes|);
    NoneInParts(one.outcomes, two.outcomes);
    NoneInParts(both.outcomes, three.outcomes);
  }

  lemma NoneInParts(first: seq<bool>, second: seq<bool>)
    ensures NoneSucceeded(first + second) <==> NoneSucceeded(first) && NoneSucceeded(second)
  {
    if NoneSucceeded(first + second) {
      assert forall i :: 0 <= i < |first| ==> first[i] == (first + second)[i];
      assert forall i :: 0 <= i < |second| ==> second[i] == (first + second)[|first| + i];
    }
  }

  /** A snapshot none of whose stats requests succeeded holds no stat. */
  lemma NoStatsNoStat(api: Api, clusterId: Id, call: nat, now: ReadTimes, newestMs: int)
    ensures var g := Gather(api, clusterId, call, now);
      g.shell.Value? && g.before <= |g.outcomes| && NoneSucceeded(g.outcomes[g.before..]) ==>
        NonePicked(g.run) && Judged(g, newestMs) == g.shell
  {
    hide GatherBelow, OfKind, JoinAll, Kept, NonePicked, NoneSucceeded;
    var reply := api.children(call, clusterId);
    var hosts := if reply.Body? then OfKind(reply.body, HostKind) else [];
    var g, below := Gather(api, clusterId, call, now), GatherBelow(api, clusterId, hosts, call + 1, now);
    BelowNoStats(api, clusterId, hosts, call + 1, now);
    if g.shell.Value? && g.before <= |g.outcomes| && NoneSucceeded(g.outcomes[g.before..]) {
      assert g.outcomes[g.before..] == below.outcomes[below.before..];
      NothingKept(g.run, newestMs);
      NoTableYet(api, clusterId, call, now);
    }
  }

  lemma NoTableYet(api: Api, clusterId: Id, call: nat, now: ReadTimes)
    ensures var g := Gather(api, clusterId, call, now); g.shell.Value? ==> g.shell.value.stats == map[]
  {
    hide AllStats, AllProps, ListingOf, OfKind, VmIds, IdsOf, Filtered, Sent, Outcomes, ChildReplies;
  }

  lemma BelowNoStats(api: Api, clusterId: Id, hosts: seq<Resource>, call: nat, now: ReadTimes)
    ensures var g := GatherBelow(api, clusterId, hosts, call, now);
      g.shell.Value? && g.before <= |g.outcomes| && NoneSucceeded(g.outcomes[g.before..]) ==> NonePicked(g.run)
  {
    hide GatherRead, ListingOf, Outcomes, Sent, NonePicked, NoneSucceeded;
    var replies := ChildReplies(api, call, hosts);
    var outcomes := Outcomes(replies[..Sent(replies)]);
    if ListingOf(hosts, replies).Value? {
      var l := ListingOf(hosts, replies).value;
      var rest := GatherRead(api, clusterId, hosts, l, call + |outcomes|, now);
      ReadNoStats(api, clusterId, hosts, l, call + |outcomes|, now);
      Tail(outcomes, rest);
    }
  }

  lemma Tail(earlier: seq<bool>, g: Gathered)
    ensures var after := g.After(earlier);
      && (after.before <= |after.outcomes| <==> g.before <= |g.outcomes|)
      && (g.before <= |g.outcomes| ==> after.outcomes[after.before..] == g.outcomes[g.before..])
  {
  }

  lemma ReadNoStats(api: Api, clusterId: Id, hosts: seq<Resource>, l: Listing, call: nat, now: ReadTimes)
    requires forall h :: h in l.order ==> h in l.vms
    ensures var g := GatherRead(api, clusterId, hosts, l, call, now);
      g.shell.Value? && g.before <= |g.outcomes| && NoneSucceeded(g.outcomes[g.before..]) ==> NonePicked(g.run)
  {
    hide GatherStats, AllProps, VmIds, IdsOf, NonePicked, NoneSucceeded;
    var props := AllProps(api, IdsOf(hosts), VmIds(l.order, l.vms), call);
    if props.found.Value? {
      var rest := GatherStats(api, clusterId, hosts, l, props.found.value, call + |props.outcomes|, now);
      StageNoStats(api, clusterId, hosts, l, props.found.value, call + |props.outcomes|, now);
      Tail(props.outcomes, rest);
    }
  }

  lemma StageNoStats(api: Api, clusterId: Id, hosts: seq<Resource>, l: Listing, props: map<(Id, string), string>,
                     call: nat, now: ReadTimes)
    requires forall h :: h in l.order ==> h in l.vms
    ensures var g := GatherStats(api, clusterId, hosts, l, props, call, now);
      g.before == 0 && (g.shell.Value? && NoneSucceeded(g.outcomes[0..]) ==> NonePicked(g.run))
  {
    hide AllStats, VmIds, IdsOf, NonePicked, NoneSucceeded, Shell;
    AllStatsNone(api, clusterId, IdsOf(hosts), VmIds(l.order, Filtered(l.vms, props)), now, call);
    var g := GatherStats(api, clusterId, hosts, l, props, call, now);
    assert g.outcomes[0..] == g.outcomes;
  }

  lemma NoChunks()
    ensures Chunks([]) == []
  {
  }
}
