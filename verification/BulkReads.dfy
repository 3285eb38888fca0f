/** Bulk reads of stats and properties in chunks (app/suite_api.py), and their order-free meaning. */
module BulkReads {
  import opened Common
  import opened Constants
  import opened Server
  import opened Sums
  import opened SuiteApi

  // ----- chunks -----

  function Chunks(ids: seq<Id>): (chunks: seq<seq<Id>>)
    ensures forall i :: 0 <= i < |chunks| ==> 1 <= |chunks[i]| <= BULK_MAX_RESOURCE_IDS
    decreases |ids|
  {
    if |ids| <= BULK_MAX_RESOURCE_IDS then
      if ids == [] then [] else [ids]
    else [ids[..BULK_MAX_RESOURCE_IDS]] + Chunks(ids[BULK_MAX_RESOURCE_IDS..])
  }

  function Join(chunks: seq<seq<Id>>): seq<Id> {
    if chunks == [] then [] else chunks[0] + Join(chunks[1..])
  }

  /** Nothing is lost, repeated or reordered, and no chunk is made that is not needed. */
  lemma {:induction false} ChunksCover(ids: seq<Id>)
    ensures Join(Chunks(ids)) == ids
    ensures |Chunks(ids)| == (|ids| + BULK_MAX_RESOURCE_IDS - 1) / BULK_MAX_RESOURCE_IDS
    decreases |ids|
  {
    if |ids| > BULK_MAX_RESOURCE_IDS {
      var rest := ids[BULK_MAX_RESOURCE_IDS..];
      ChunksCover(rest);
      assert Chunks(ids)[1..] == Chunks(rest);
    } else if ids != [] {
      assert Chunks(ids)[1..] == [];
    }
  }

  ghost function IdsIn(chunks: seq<seq<Id>>): set<Id> {
    set i, id | 0 <= i < |chunks| && id in chunks[i] :: id
  }

  lemma {:induction false} JoinIds(chunks: seq<seq<Id>>, id: Id)
    ensures id in Join(chunks) <==> id in IdsIn(chunks)
  {
    if chunks != [] {
      JoinIds(chunks[1..], id);
      if id in IdsIn(chunks) {
        var i :| 0 <= i < |chunks| && id in chunks[i];
        assert i > 0 ==> chunks[1..][i - 1] == chunks[i];
      }
    }
  }

  ghost function IdSet(ids: seq<Id>): set<Id> {
    set id | id in ids
  }

  lemma ChunkIds(ids: seq<Id>)
    ensures IdsIn(Chunks(ids)) == IdSet(ids)
  {
    hide IdsIn, Chunks;
    ChunksCover(ids);
    forall id ensures id in IdsIn(Chunks(ids)) <==> id in ids {
      JoinIds(Chunks(ids), id);
    }
  }

  // ----- picking requested stats and properties from a reply -----

  const AGGREGATE_INSTANCE := "Aggregate of all instances"

  function BarIndex(key: string): (i: nat)
    ensures i <= |key| && (i < |key| ==> key[i] == '|')
    ensures forall j :: 0 <= j < i ==> key[j] != '|'
  {
    if key == "" || key[0] == '|' then 0 else 1 + BarIndex(key[1..])
  }

  /** `group|metric` becomes `group:Aggregate of all instances|metric`; a key without a bar stays. */
  function AggregateKey(key: string): string {
    var i := BarIndex(key);
    if i < |key| then key[..i] + ":" + AGGREGATE_INSTANCE + key[i..] else key
  }

  /** The named stats with data, the last one winning when a key is repeated. */
  function Returned(content: seq<RawStat>): (returned: map<string, RawStat>)
    ensures forall k :: k in returned ==> returned[k].data != []
  {
    if content == [] then map[]
    else
      var before, last := Returned(content[..|content| - 1]), content[|content| - 1];
      if last.key != "" && last.data != [] then before[last.key := last] else before
  }

  /** The requested key itself, or the aggregate of its instances. */
  function Pick(returned: map<string, RawStat>, statkey: string): Option<RawStat> {
    if statkey in returned then Some(returned[statkey])
    else if AggregateKey(statkey) in returned then Some(returned[AggregateKey(statkey)])
    else None
  }

  function LastSample(stat: RawStat): Sample
    requires stat.data != []
  {
    Sample(stat.data[|stat.data| - 1], stat.timestamps)
  }

  function StatsOf(content: seq<RawStat>, keys: seq<string>): map<string, Sample> {
    var returned := Returned(content);
    map k | k in keys && Pick(returned, k).Some? :: LastSample(Pick(returned, k).value)
  }

  function PropsOf(content: seq<RawProp>, keys: seq<string>): map<string, string> {
    if content == [] then map[]
    else
      var before, last := PropsOf(content[..|content| - 1], keys), content[|content| - 1];
      if last.key in keys && last.values != [] then before[last.key := last.values[|last.values| - 1]] else before
  }

  /** The picks of one reply entry. */
  method PickStats(content: seq<RawStat>, keys: seq<string>) returns (picks: map<string, Sample>)
    ensures picks == StatsOf(content, keys)
  {
    hide AggregateKey;
    var returned: map<string, RawStat> := map[];
    for i := 0 to |content|
      invariant returned == Returned(content[..i])
    {
      assert content[..i + 1][..i] == content[..i];
      if content[i].key != "" && content[i].data != [] {
        returned := returned[content[i].key := content[i]];
      }
    }
    assert content[..|content|] == content;
    picks := map[];
    for i := 0 to |keys|
      invariant picks == map k | k in keys[..i] && Pick(returned, k).Some? :: LastSample(Pick(returned, k).value)
    {
      assert keys[..i + 1] == keys[..i] + [keys[i]];
      var stat := Pick(returned, keys[i]);
      if stat.Some? {
        picks := picks[keys[i] := LastSample(stat.value)];
      }
    }
    assert keys[..|keys|] == keys;
  }

  method PickProps(content: seq<RawProp>, keys: seq<string>) returns (picks: map<string, string>)
    ensures picks == PropsOf(content, keys)
  {
    picks := map[];
    for i := 0 to |content|
      invariant picks == PropsOf(content[..i], keys)
    {
      assert content[..i + 1][..i] == content[..i];
      if content[i].key in keys && content[i].values != [] {
        picks := picks[content[i].key := content[i].values[|content[i].values| - 1]];
      }
    }
    assert content[..|content|] == content;
  }

  // ----- merging entries and chunks -----

  function Keyed<V>(id: Id, values: map<string, V>): map<(Id, string), V> {
    map k | k in values :: (id, k) := values[k]
  }

  function Merged<A, V>(entries: seq<Entry<A>>, extract: A -> map<string, V>): map<(Id, string), V> {
    if entries == [] then map[]
    else
      var last := entries[|entries| - 1];
      Merged(entries[..|entries| - 1], extract) + Keyed(last.resourceId, extract(last.content))
  }

  /** What a sequence of chunk replies adds up to: a failed chunk adds nothing, an exception ends the read. */
  function ReadChunks<A, V>(replies: seq<Reply<seq<Entry<A>>>>, extract: A -> map<string, V>): Outcome<map<(Id, string), V>> {
    if replies == [] then Value(map[])
    else
      var before := ReadChunks(replies[..|replies| - 1], extract);
      if before.Raise? then before
      else
        match replies[|replies| - 1]
        case Body(entries) => Value(before.value + Merged(entries, extract))
        case NotOk => before
        case Raised => Raise(OtherError)
        case Malformed => Raise(OtherError)
  }

  /** An exception in any chunk is an exception of the whole read. */
  lemma {:induction false} RaiseStays<A, V>(replies: seq<Reply<seq<Entry<A>>>>, n: nat, extract: A -> map<string, V>)
    requires n <= |replies| && ReadChunks(replies[..n], extract).Raise?
    ensures ReadChunks(replies, extract) == Raise(OtherError)
  {
    if |replies| > n {
      var init := replies[..|replies| - 1];
      assert init[..n] == replies[..n];
      RaiseStays(init, n, extract);
    } else {
      assert replies[..n] == replies;
      RaisedError(replies, extract);
    }
  }

  lemma {:induction false} RaisedError<A, V>(replies: seq<Reply<seq<Entry<A>>>>, extract: A -> map<string, V>)
    ensures ReadChunks(replies, extract).Raise? ==> ReadChunks(replies, extract) == Raise(OtherError)
  {
    if replies != [] {
      RaisedError(replies[..|replies| - 1], extract);
    }
  }

  function StatExtract(keys: seq<string>): seq<RawStat> -> map<string, Sample> {
    content => StatsOf(content, keys)
  }

  function PropExtract(keys: seq<string>): seq<RawProp> -> map<string, string> {
    content => PropsOf(content, keys)
  }

  /** The replies a bulk stats read gets when its first request is request number `call`. */
  function StatReplies(api: Api, call: nat, chunks: seq<seq<Id>>, keys: seq<string>): (replies: seq<StatsReply>)
    ensures |replies| == |chunks|
    ensures forall i :: 0 <= i < |chunks| ==> replies[i] == api.stats(call + i, chunks[i], keys)
  {
    seq(|chunks|, i requires 0 <= i < |chunks| => api.stats(call + i, chunks[i], keys))
  }

  function PropReplies(api: Api, call: nat, chunks: seq<seq<Id>>, keys: seq<string>): (replies: seq<PropsReply>)
    ensures |replies| == |chunks|
    ensures forall i :: 0 <= i < |chunks| ==> replies[i] == api.props(call + i, chunks[i], keys)
  {
    seq(|chunks|, i requires 0 <= i < |chunks| => api.props(call + i, chunks[i], keys))
  }

  /** Which of a sequence of requests succeeded. */
  ghost function Outcomes<T>(replies: seq<Reply<T>>): (outcomes: seq<bool>)
    ensures |outcomes| == |replies|
  {
    seq(|replies|, i requires 0 <= i < |replies| => Succeeded(replies[i]))
  }

  method MergeStats(samples: map<SampleKey, Sample>, entries: seq<Entry<seq<RawStat>>>, keys: seq<string>)
    returns (next: map<SampleKey, Sample>)
    ensures next == samples + Merged(entries, StatExtract(keys))
  {
    hide StatsOf, Keyed;
    next := samples;
    for i := 0 to |entries|
      invariant next == samples + Merged(entries[..i], StatExtract(keys))
    {
      assert entries[..i + 1][..i] == entries[..i];
      var picks := PickStats(entries[i].content, keys);
      MergeAssociates(samples, Merged(entries[..i], StatExtract(keys)), Keyed(entries[i].resourceId, picks));
      next := next + Keyed(entries[i].resourceId, picks);
    }
    assert entries[..|entries|] == entries;
  }

  lemma MergeAssociates<K, V>(a: map<K, V>, b: map<K, V>, c: map<K, V>)
    ensures (a + b) + c == a + (b + c)
  {
  }

  method MergeProps(props: map<(Id, string), string>, entries: seq<Entry<seq<RawProp>>>, keys: seq<string>)
    returns (next: map<(Id, string), string>)
    ensures next == props + Merged(entries, PropExtract(keys))
  {
    hide PropsOf, Keyed;
    next := props;
    for i := 0 to |entries|
      invariant next == props + Merged(entries[..i], PropExtract(keys))
    {
      assert entries[..i + 1][..i] == entries[..i];
      var picks := PickProps(entries[i].content, keys);
      MergeAssociates(props, Merged(entries[..i], PropExtract(keys)), Keyed(entries[i].resourceId, picks));
      next := next + Keyed(entries[i].resourceId, picks);
    }
    assert entries[..|entries|] == entries;
  }

  // ----- how many requests a chunked read sends -----

  /** All of them, or up to and including the first whose reply raises. */
  function Sent<T>(replies: seq<Reply<T>>): (n: nat)
    ensures n <= |replies|
    ensures forall i :: 0 <= i < n - 1 ==> !Raises(replies[i])
    ensures n < |replies| ==> n >= 1 && Raises(replies[n - 1])
    ensures replies != [] ==> n >= 1
  {
    if replies == [] then 0 else if Raises(replies[0]) then 1 else 1 + Sent(replies[1..])
  }

  lemma SentIs<T>(replies: seq<Reply<T>>, n: nat)
    requires n <= |replies| && forall i :: 0 <= i < n - 1 ==> !Raises(replies[i])
    requires n < |replies| ==> n >= 1 && Raises(replies[n - 1])
    ensures Sent(replies) == n
  {
    hide Raises;
  }

  /** One more request of a chunked read. */
  lemma ReadStep<A, V>(replies: seq<Reply<seq<Entry<A>>>>, i: nat, extract: A -> map<string, V>)
    requires i < |replies| && (forall j :: 0 <= j < i ==> !Raises(replies[j])) && ReadChunks(replies[..i], extract).Value?
    ensures Outcomes(replies[..i + 1]) == Outcomes(replies[..i]) + [Succeeded(replies[i])]
    ensures var before, after := ReadChunks(replies[..i], extract), ReadChunks(replies[..i + 1], extract);
      match replies[i]
      case Body(entries) => after == Value(before.value + Merged(entries, extract))
      case NotOk => after == before
      case Raised => Sent(replies) == i + 1 && ReadChunks(replies, extract) == Raise(OtherError)
      case Malformed => Sent(replies) == i + 1 && ReadChunks(replies, extract) == Raise(OtherError)
    ensures Raises(replies[i]) <==> replies[i].Raised? || replies[i].Malformed?
  {
    hide Merged;
    assert replies[..i + 1][..i] == replies[..i];
    if Raises(replies[i]) {
      RaiseStays(replies, i + 1, extract);
      SentIs(replies, i + 1);
    }
  }

  /** After the last request. */
  lemma ReadEnd<A, V>(replies: seq<Reply<seq<Entry<A>>>>, extract: A -> map<string, V>)
    ensures replies[..0] == [] && replies[..|replies|] == replies
    ensures Outcomes(replies[..0]) == [] && ReadChunks(replies[..0], extract) == Value(map[])
    ensures (forall j :: 0 <= j < |replies| ==> !Raises(replies[j])) ==> Sent(replies) == |replies|
  {
    if forall j :: 0 <= j < |replies| ==> !Raises(replies[j]) {
      SentIs(replies, |replies|);
    }
  }

  // ----- the two bulk reads -----

  /** Every chunk is requested; the samples of all chunks are in before any is judged. */
  method ReadStats(api: Api, stats: CallStats, ids: seq<Id>, keys: seq<string>)
    returns (r: Outcome<map<SampleKey, Sample>>)
    requires stats.Valid()
    modifies stats`calls, stats`failures, stats`log
    ensures stats.Valid()
    ensures r == ReadChunks(StatReplies(api, old(stats.calls), Chunks(ids), keys), StatExtract(keys))
    ensures var replies := StatReplies(api, old(stats.calls), Chunks(ids), keys);
      && stats.log == old(stats.log) + Outcomes(replies[..Sent(replies)])
      && (r.Value? ==> stats.log == old(stats.log) + Outcomes(replies))
    ensures old(stats.log) <= stats.log
  {
    hide *;
    var chunks := Chunks(ids);
    LogIsCalls(stats);
    ghost var start, replies := stats.log, StatReplies(api, stats.calls, chunks, keys);
    var samples: map<SampleKey, Sample> := map[];
    ReadEnd(replies, StatExtract(keys));
    for i := 0 to |chunks|
      invariant stats.Valid() && |stats.log| == |start| + i
      invariant stats.log == start + Outcomes(replies[..i])
      invariant forall j :: 0 <= j < i ==> !Raises(replies[j])
      invariant ReadChunks(replies[..i], StatExtract(keys)) == Value(samples)
    {
      LogIsCalls(stats);
      var reply := api.stats(stats.calls, chunks[i], keys);
      assert reply == replies[i];
      ReadStep(replies, i, StatExtract(keys));
      var body := stats.Request(reply);
      if body.Raise? {
        return Raise(body.error);
      }
      if body.value.Some? {
        samples := MergeStats(samples, body.value.value, keys);
      }
    }
    return Value(samples);
  }

  /** The conclusion of a stats read: newest first, then the verdicts. */
  method JudgeRead(stats: CallStats, nowMs: int, samples: map<SampleKey, Sample>) returns (kept: map<SampleKey, real>)
    requires stats.Valid()
    modifies stats`stale, stats`staleKeys, stats`newestMs, stats`history, stats`returned
    ensures stats.Valid()
    ensures stats.history == old(stats.history) + [samples]
    ensures stats.newestMs == Newest(old(stats.newestMs), samples)
    ensures kept == Fresh(samples, stats.newestMs, nowMs)
    ensures stats.stale + |kept| == old(stats.stale) + |samples|
    ensures stats.returned == old(stats.returned) + |kept|
    ensures forall key :: CountOf(stats.staleKeys, key)
              == CountOf(old(stats.staleKeys), key) + |StaleUnder(samples, key, stats.newestMs, nowMs)|
  {
    hide Fresh, StaleUnder, CountOf, IsStale, NewestIn, PickedIn, Newest, Failures, Total;
    HistoryStep(stats.history, samples);
    stats.NoteNewest(samples);
    kept := stats.Judge(samples, nowMs);
    stats.history := stats.history + [samples];
    stats.returned := stats.returned + |kept|;
  }

  lemma HistoryStep(history: seq<map<SampleKey, Sample>>, samples: map<SampleKey, Sample>)
    ensures NewestIn(history + [samples]) == Newest(NewestIn(history), samples)
    ensures PickedIn(history + [samples]) == PickedIn(history) + |samples|
  {
    assert (history + [samples])[..|history|] == history;
  }

  /** What a bulk stats read returns when its first request is number `call` and the newest sample known before is `newestMs`. */
  ghost function StatsResult(api: Api, call: nat, ids: seq<Id>, keys: seq<string>, newestMs: int, nowMs: int)
    : Outcome<map<SampleKey, real>>
  {
    var picked := ReadChunks(StatReplies(api, call, Chunks(ids), keys), StatExtract(keys));
    if picked.Raise? then Raise(picked.error) else Value(Fresh(picked.value, Newest(newestMs, picked.value), nowMs))
  }

  /**
   The bulk stats read. With the picked samples P of all chunks that answered, it returns
   exactly the samples of P that are fresh against max(previous newest, all timestamps of P);
   the stale ones are counted under their keys. An exception leaves the sample counters alone.
   */
  method BulkLatestStats(api: Api, stats: CallStats, nowMs: int, ids: seq<Id>, keys: seq<string>)
    returns (r: Outcome<map<SampleKey, real>>)
    requires stats.Valid()
    modifies stats
    ensures stats.Valid()
    ensures old(stats.log) <= stats.log
    ensures r == StatsResult(api, old(stats.calls), ids, keys, old(stats.newestMs), nowMs)
    ensures var replies := StatReplies(api, old(stats.calls), Chunks(ids), keys);
      stats.log == old(stats.log) + Outcomes(replies[..Sent(replies)])
    ensures var replies := StatReplies(api, old(stats.calls), Chunks(ids), keys);
      match ReadChunks(replies, StatExtract(keys))
      case Raise(e) =>
        && r == Raise(e)
        && stats.history == old(stats.history) && stats.newestMs == old(stats.newestMs) && stats.stale == old(stats.stale)
      case Value(picked) =>
        && stats.log == old(stats.log) + Outcomes(replies)
        && stats.history == old(stats.history) + [picked]
        && stats.newestMs == Newest(old(stats.newestMs), picked)
        && r == Value(Fresh(picked, stats.newestMs, nowMs))
        && stats.stale + |r.value| == old(stats.stale) + |picked|
        && (forall key :: CountOf(stats.staleKeys, key)
              == CountOf(old(stats.staleKeys), key) + |StaleUnder(picked, key, stats.newestMs, nowMs)|)
  {
    hide Fresh, StaleUnder, CountOf, Chunks, ReadChunks, StatExtract, StatReplies, Newest;
    var samples := ReadStats(api, stats, ids, keys);
    if samples.Raise? {
      return Raise(samples.error);
    }
    var kept := JudgeRead(stats, nowMs, samples.value);
    return Value(kept);
  }

  /** The bulk properties read: the last value of every requested property; properties are never stale. */
  method BulkLatestProperties(api: Api, stats: CallStats, ids: seq<Id>, keys: seq<string>)
    returns (r: Outcome<map<(Id, string), string>>)
    requires stats.Valid()
    modifies stats`calls, stats`failures, stats`log
    ensures stats.Valid()
    ensures r == ReadChunks(PropReplies(api, old(stats.calls), Chunks(ids), keys), PropExtract(keys))
    ensures var replies := PropReplies(api, old(stats.calls), Chunks(ids), keys);
      && stats.log == old(stats.log) + Outcomes(replies[..Sent(replies)])
      && (r.Value? ==> stats.log == old(stats.log) + Outcomes(replies))
    ensures old(stats.log) <= stats.log
  {
    hide *;
    var chunks := Chunks(ids);
    LogIsCalls(stats);
    ghost var start, replies := stats.log, PropReplies(api, stats.calls, chunks, keys);
    var found: map<(Id, string), string> := map[];
    ReadEnd(replies, PropExtract(keys));
    for i := 0 to |chunks|
      invariant stats.Valid() && |stats.log| == |start| + i
      invariant stats.log == start + Outcomes(replies[..i])
      invariant forall j :: 0 <= j < i ==> !Raises(replies[j])
      invariant ReadChunks(replies[..i], PropExtract(keys)) == Value(found)
    {
      LogIsCalls(stats);
      var reply := api.props(stats.calls, chunks[i], keys);
      assert reply == replies[i];
      ReadStep(replies, i, PropExtract(keys));
      var body := stats.Request(reply);
      if body.Raise? {
        return Raise(body.error);
      }
      if body.value.Some? {
        found := MergeProps(found, body.value.value, keys);
      }
    }
    return Value(found);
  }
}
