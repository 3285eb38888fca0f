/**
 What one cluster's reading comes to, for every server (app/traversal.py): what the replies say, which no clock and no
 earlier sample can change, and then what of it is kept, which the newest sample known before decides.
 */
module Gathering {
  import opened Common
  import opened Constants
  import opened Server
  import opened SuiteApi
  import opened BulkReads
  import opened BulkTheorems
  import opened Inventory
  import opened Traversal

  function IdsOf(resources: seq<Resource>): (ids: seq<Id>)
    ensures |ids| == |resources|
    ensures forall i :: 0 <= i < |ids| ==> ids[i] == resources[i].id
  {
    seq(|resources|, i requires 0 <= i < |resources| => resources[i].id)
  }

  /** The VMs of a list whose power state property says that they are on. */
  function PoweredOn(vms: seq<Resource>, props: map<(Id, string), string>): (kept: seq<Resource>)
  {
    if vms == [] then []
    else
      var last := vms[|vms| - 1];
      PoweredOn(vms[..|vms| - 1], props) + if IsOn(last.id, props) then [last] else []
  }

  function Filtered(listings: map<Id, seq<Resource>>, props: map<(Id, string), string>): map<Id, seq<Resource>> {
    map h | h in listings :: PoweredOn(listings[h], props)
  }

  predicate IsOn(vmId: Id, props: map<(Id, string), string>) {
    (vmId, VM_POWER_STATE_PROPERTY) in props && props[(vmId, VM_POWER_STATE_PROPERTY)] == VM_POWERED_ON
  }

  /** The collector's clock at each of the three stats reads of a cluster. */
  datatype ReadTimes = ReadTimes(cluster: int, hosts: int, vms: int)

  // ----- listings -----

  /** The VM listings by host id, and the ids in the order in which they were first listed. */
  datatype Listing = Listing(vms: map<Id, seq<Resource>>, order: seq<Id>)

  function WithListing(l: Listing, hostId: Id, vms: seq<Resource>): Listing {
    Listing(l.vms[hostId := vms], if hostId in l.vms then l.order else l.order + [hostId])
  }

  ghost function ChildReplies(api: Api, call: nat, hosts: seq<Resource>): (replies: seq<Reply<seq<Child>>>)
    ensures |replies| == |hosts|
    ensures forall i :: 0 <= i < |hosts| ==> replies[i] == api.children(call + i, hosts[i].id)
  {
    seq(|hosts|, i requires 0 <= i < |hosts| => api.children(call + i, hosts[i].id))
  }

  /** The listings of some hosts: a failed one is empty, one that raises ends them. */
  function ListingOf(hosts: seq<Resource>, replies: seq<Reply<seq<Child>>>): (r: Outcome<Listing>)
    requires |hosts| == |replies|
    ensures r.Value? ==> forall h :: h in r.value.order ==> h in r.value.vms
  {
    if hosts == [] then Value(Listing(map[], []))
    else
      var n := |hosts| - 1;
      var before := ListingOf(hosts[..n], replies[..n]);
      if before.Raise? then before
      else
        match replies[n]
        case Body(children) => Value(WithListing(before.value, hosts[n].id, OfKind(children, VmKind)))
        case NotOk => Value(WithListing(before.value, hosts[n].id, []))
        case Raised => Raise(OtherError)
        case Malformed => Raise(OtherError)
  }

  /** The ids of all listed VMs, host by host. */
  function VmIds(order: seq<Id>, listings: map<Id, seq<Resource>>): seq<Id>
    requires forall h :: h in order ==> h in listings
  {
    if order == [] then []
    else
      var last := order[|order| - 1];
      VmIds(order[..|order| - 1], listings) + IdsOf(listings[last])
  }

  // ----- properties -----

  /** Found properties, and which of the requests for them succeeded. */
  datatype PropsRun = PropsRun(found: Outcome<map<(Id, string), string>>, outcomes: seq<bool>)

  /** One bulk properties read; no ids are no request. */
  ghost function OneProps(api: Api, ids: seq<Id>, keys: seq<string>, call: nat): PropsRun {
    var replies := PropReplies(api, call, Chunks(ids), keys);
    PropsRun(ReadChunks(replies, PropExtract(keys)), Outcomes(replies[..Sent(replies)]))
  }

  /** Those of the hosts, then those of the VMs. */
  ghost function AllProps(api: Api, hostIds: seq<Id>, vmIds: seq<Id>, call: nat): PropsRun {
    var hosts := OneProps(api, hostIds, HOST_PROPERTY_KEYS, call);
    if hosts.found.Raise? then hosts
    else
      var vms := OneProps(api, vmIds, VM_PROPERTY_KEYS, call + |hosts.outcomes|);
      PropsRun(if vms.found.Raise? then vms.found else Value(hosts.found.value + vms.found.value), hosts.outcomes + vms.outcomes)
  }

  // ----- stats -----

  /** Completed stats reads, whether a further one raised, and which of the requests succeeded. */
  datatype StatsRun = StatsRun(raised: bool, run: seq<Read>, outcomes: seq<bool>)

  /** One bulk stats read; no ids are no request, and nothing picked. */
  ghost function OneStats(api: Api, ids: seq<Id>, keys: seq<string>, nowMs: int, call: nat): StatsRun {
    var replies := StatReplies(api, call, Chunks(ids), keys);
    var picked := ReadChunks(replies, StatExtract(keys));
    StatsRun(picked.Raise?, if picked.Raise? then [] else [Read(picked.value, nowMs)], Outcomes(replies[..Sent(replies)]))
  }

  /** One run after another that did not raise. */
  function ThenRun(first: StatsRun, second: StatsRun): StatsRun {
    StatsRun(second.raised, first.run + second.run, first.outcomes + second.outcomes)
  }

  /** The stats of the cluster, of its hosts, and of its powered-on VMs. */
  ghost function AllStats(api: Api, clusterId: Id, hostIds: seq<Id>, onIds: seq<Id>, now: ReadTimes, call: nat): StatsRun {
    var own := OneStats(api, [clusterId], CLUSTER_STATKEYS, now.cluster, call);
    if own.raised then own
    else
      var hosts := ThenRun(own, OneStats(api, hostIds, HOST_STATKEYS, now.hosts, call + |own.outcomes|));
      if hosts.raised then hosts else ThenRun(hosts, OneStats(api, onIds, VM_STATKEYS, now.vms, call + |hosts.outcomes|))
  }

  // ----- one cluster -----

  /**
   What the replies say of a cluster: its snapshot but for the stats, or what was raised; the completed stats
   reads; how many requests came before the stats; and which requests succeeded.
   */
  datatype Gathered = Gathered(shell: Outcome<Snapshot>, run: seq<Read>, before: nat, outcomes: seq<bool>) {
    /** The same but for the requests it took. */
    predicate Alike(other: Gathered) {
      shell == other.shell && run == other.run
    }

    /** The same after some earlier requests. */
    function After(earlier: seq<bool>): Gathered {
      Gathered(shell, run, |earlier| + before, earlier + outcomes)
    }
  }

  function NothingGathered(e: Exception, outcomes: seq<bool>): Gathered {
    Gathered(Raise(e), [], |outcomes|, outcomes)
  }

  ghost function Gather(api: Api, clusterId: Id, call: nat, now: ReadTimes): Gathered {
    var listing := api.children(call, clusterId);
    match listing
    case Body(children) => GatherBelow(api, clusterId, OfKind(children, HostKind), call + 1, now).After([true])
    case NotOk => GatherBelow(api, clusterId, [], call + 1, now).After([false])
    case Raised => NothingGathered(OtherError, [false])
    case Malformed => NothingGathered(OtherError, [true])
  }

  ghost function GatherBelow(api: Api, clusterId: Id, hosts: seq<Resource>, call: nat, now: ReadTimes): Gathered {
    var replies := ChildReplies(api, call, hosts);
    var outcomes := Outcomes(replies[..Sent(replies)]);
    match ListingOf(hosts, replies)
    case Raise(e) => NothingGathered(e, outcomes)
    case Value(l) => GatherRead(api, clusterId, hosts, l, call + |outcomes|, now).After(outcomes)
  }

  ghost function GatherRead(api: Api, clusterId: Id, hosts: seq<Resource>, l: Listing, call: nat, now: ReadTimes): Gathered
    requires forall h :: h in l.order ==> h in l.vms
  {
    var props := AllProps(api, IdsOf(hosts), VmIds(l.order, l.vms), call);
    match props.found
    case Raise(e) => NothingGathered(e, props.outcomes)
    case Value(found) => GatherStats(api, clusterId, hosts, l, found, call + |props.outcomes|, now).After(props.outcomes)
  }

  ghost function GatherStats(api: Api, clusterId: Id, hosts: seq<Resource>, l: Listing, props: map<(Id, string), string>,
                             call: nat, now: ReadTimes): Gathered
    requires forall h :: h in l.order ==> h in l.vms
  {
    var reading := AllStats(api, clusterId, IdsOf(hosts), VmIds(l.order, Filtered(l.vms, props)), now, call);
    Gathered(if reading.raised then Raise(OtherError) else Value(Shell(clusterId, hosts, l, props)), reading.run, 0, reading.outcomes)
  }

  /** A snapshot without stats: the powered-on VMs of each host, and how many are off. */
  function Shell(clusterId: Id, hosts: seq<Resource>, l: Listing, props: map<(Id, string), string>): Snapshot
    requires forall h :: h in l.order ==> h in l.vms
  {
    var kept := Filtered(l.vms, props);
    Snapshot(clusterId, hosts, kept, map[], props, |VmIds(l.order, l.vms)| - |VmIds(l.order, kept)|)
  }

  // ----- what is kept of it -----

  /** Stats tables, each updating those before it. */
  function JoinAll(tables: seq<map<SampleKey, real>>): map<SampleKey, real> {
    if tables == [] then map[] else JoinAll(tables[..|tables| - 1]) + tables[|tables| - 1]
  }

  /** The snapshot that is read when `newestMs` is the newest sample known before. */
  ghost function Judged(g: Gathered, newestMs: int): Outcome<Snapshot> {
    if g.shell.Raise? then Raise(g.shell.error) else Value(g.shell.value.(stats := JoinAll(Kept(g.run, newestMs))))
  }
}
