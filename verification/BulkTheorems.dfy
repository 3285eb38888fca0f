/** Order-free meaning of bulk reads against a server that answers per resource, with and without failed chunks. */
module BulkTheorems {
  import opened Common
  import opened Constants
  import opened Server
  import opened SuiteApi
  import opened BulkReads

  // ----- the cycle's newest sample -----

  ghost predicate Stamped(history: seq<map<SampleKey, Sample>>, ms: int) {
    exists i, k :: 0 <= i < |history| && k in history[i] && history[i][k].Stamp() == Some(ms)
  }

  /** After any sequence of reads the newest timestamp is the largest of all picked ones, or still zero. */
  lemma {:induction false} NewestIsMaxOfAll(history: seq<map<SampleKey, Sample>>)
    ensures NewestIn(history) == 0 || Stamped(history, NewestIn(history))
    ensures NewestIn(history) >= 0
    ensures forall ms :: Stamped(history, ms) ==> ms <= NewestIn(history)
  {
    hide Newest;
    if history != [] {
      var n := |history| - 1;
      var init := history[..n];
      NewestIsMaxOfAll(init);
      var newest := Newest(NewestIn(init), history[n]);
      forall ms | Stamped(history, ms) ensures ms <= newest {
        var i, k :| 0 <= i < |history| && k in history[i] && history[i][k].Stamp() == Some(ms);
        assert i < n ==> k in init[i] && Stamped(init, ms);
      }
      if newest == NewestIn(init) && newest != 0 {
        var i, k :| 0 <= i < |init| && k in init[i] && init[i][k].Stamp() == Some(newest);
        assert k in history[i] && history[i][k].Stamp() == Some(newest);
      }
    }
  }

  /** It never decreases along a cycle. */
  lemma {:induction false} NewestNeverDecreases(history: seq<map<SampleKey, Sample>>, n: nat)
    requires n <= |history|
    ensures NewestIn(history[..n]) <= NewestIn(history)
  {
    hide Newest;
    if n < |history| {
      var init := history[..|history| - 1];
      assert init[..n] == history[..n];
      NewestNeverDecreases(init, n);
    } else {
      assert history[..n] == history;
    }
  }

  // ----- which stat of a reply answers a requested key -----

  /** The aggregate instance stands between the group, up to the first bar, and the rest. */
  lemma AggregateInstance(group: string, rest: string)
    requires '|' !in group
    ensures AggregateKey(group + ("|" + rest)) == group + ":" + "Aggregate of all instances" + ("|" + rest)
    ensures AggregateKey(group) == group
  {
    hide AGGREGATE_INSTANCE;
    TheInstance();
    FirstBar(group, "|" + rest);
    FirstBar(group, "");
    assert group + "" == group;
    var key := group + ("|" + rest);
    assert key[..|group|] == group && key[|group|..] == "|" + rest;
  }

  lemma TheInstance()
    ensures AGGREGATE_INSTANCE == "Aggregate of all instances"
  {
  }

  lemma {:induction false} FirstBar(group: string, rest: string)
    requires '|' !in group && (rest != "" ==> rest[0] == '|')
    ensures BarIndex(group + rest) == |group|
  {
    if group == "" {
      assert group + rest == rest;
    } else {
      assert (group + rest)[1..] == group[1..] + rest;
      FirstBar(group[1..], rest);
    }
  }

  /** Entry i is the last one with this key that has data. */
  ghost predicate LastWithData(content: seq<RawStat>, key: string, i: int) {
    && 0 <= i < |content| && content[i].key == key && content[i].data != []
    && forall j :: i < j < |content| && content[j].key == key ==> content[j].data == []
  }

  lemma {:induction false} ReturnedIsLast(content: seq<RawStat>, key: string)
    requires key != ""
    ensures key in Returned(content) ==> exists i :: LastWithData(content, key, i)
    ensures forall i :: LastWithData(content, key, i) ==> key in Returned(content) && Returned(content)[key] == content[i]
  {
    if content != [] {
      var n := |content| - 1;
      var init, last := content[..n], content[n];
      ReturnedIsLast(init, key);
      if last.key == key && last.data != [] {
        assert LastWithData(content, key, n);
      } else {
        forall i ensures LastWithData(init, key, i) <==> LastWithData(content, key, i) {
          assert 0 <= i < n ==> init[i] == content[i];
          assert forall j :: 0 <= j < n ==> init[j] == content[j];
        }
      }
    }
  }

  /** The sample is the stat's last value, with all its timestamps. */
  predicate IsLastOf(s: Sample, stat: RawStat) {
    && stat.data != [] && s.value == stat.data[|stat.data| - 1]
    && s.timestamps == stat.timestamps
  }

  /**
   A requested key is answered by the last value of its own last entry with data; only when there
   is none, by that of its aggregate instance; and by nothing else.
   */
  lemma PickedStat(content: seq<RawStat>, keys: seq<string>, key: string)
    requires key != ""
    ensures key in StatsOf(content, keys) <==>
      key in keys && exists i :: LastWithData(content, key, i) || LastWithData(content, AggregateKey(key), i)
    ensures forall i :: key in keys && LastWithData(content, key, i) ==> IsLastOf(StatsOf(content, keys)[key], content[i])
    ensures key in keys && (forall j :: !LastWithData(content, key, j)) ==>
      forall i :: LastWithData(content, AggregateKey(key), i) ==> IsLastOf(StatsOf(content, keys)[key], content[i])
  {
    hide LastWithData, Returned, AggregateKey;
    HasData(content);
    ReturnedIsLast(content, key);
    AggregateNotEmpty(key);
    ReturnedIsLast(content, AggregateKey(key));
  }

  lemma AggregateNotEmpty(key: string)
    requires key != ""
    ensures AggregateKey(key) != ""
  {
  }

  lemma HasData(content: seq<RawStat>)
    ensures forall key, i :: LastWithData(content, key, i) ==> 0 <= i < |content| && content[i].data != []
  {
  }

  /** Entry i is the last one with this key that has values. */
  ghost predicate LastWithValues(content: seq<RawProp>, key: string, i: int) {
    && 0 <= i < |content| && content[i].key == key && content[i].values != []
    && forall j :: i < j < |content| && content[j].key == key ==> content[j].values == []
  }

  /** A requested property is the last value of its last entry with values; no other key is found. */
  lemma {:induction false} FoundProperty(content: seq<RawProp>, keys: seq<string>, key: string)
    ensures key in PropsOf(content, keys) <==> key in keys && exists i :: LastWithValues(content, key, i)
    ensures forall i :: key in keys && LastWithValues(content, key, i) ==>
      PropsOf(content, keys)[key] == content[i].values[|content[i].values| - 1]
  {
    if content != [] {
      var n := |content| - 1;
      var init, last := content[..n], content[n];
      FoundProperty(init, keys, key);
      if last.key == key && last.values != [] {
        assert LastWithValues(content, key, n);
      } else {
        forall i ensures LastWithValues(init, key, i) <==> LastWithValues(content, key, i) {
          assert 0 <= i < n ==> init[i] == content[i];
          assert forall j :: 0 <= j < n ==> init[j] == content[j];
        }
      }
    }
  }

  // ----- a server that answers per resource -----

  /** The entries of a reply are those of the requested ids; an id may be missing only when it has nothing to give. */
  ghost predicate Answers<A(!new), V>(entries: seq<Entry<A>>, ids: seq<Id>, answer: Id -> A, extract: A -> map<string, V>) {
    && (forall e :: e in entries ==> e.resourceId in ids && e.content == answer(e.resourceId))
    && (forall id :: id in ids ==> HasEntry(entries, id) || extract(answer(id)) == map[])
  }

  ghost predicate HasEntry<A(!new)>(entries: seq<Entry<A>>, id: Id) {
    exists e :: e in entries && e.resourceId == id
  }

  /** Everything a per-resource answer holds for a set of ids. */
  ghost function ValuesOf<A, V>(answer: Id -> A, extract: A -> map<string, V>, ids: set<Id>): map<(Id, string), V> {
    map id, k | id in ids && k in extract(answer(id)) :: (id, k) := extract(answer(id))[k]
  }

  ghost function EntryIds<A>(entries: seq<Entry<A>>): set<Id> {
    set e | e in entries :: e.resourceId
  }

  lemma {:induction false} MergedIsValuesOf<A, V>(entries: seq<Entry<A>>, answer: Id -> A, extract: A -> map<string, V>)
    requires forall e :: e in entries ==> e.content == answer(e.resourceId)
    ensures Merged(entries, extract) == ValuesOf(answer, extract, EntryIds(entries))
  {
    if entries != [] {
      var n := |entries| - 1;
      var init, last := entries[..n], entries[n];
      assert entries == init + [last];
      MergedIsValuesOf(init, answer, extract);
      assert EntryIds(entries) == EntryIds(init) + {last.resourceId};
      ValuesOfAdd(answer, extract, EntryIds(init), last.resourceId);
    } else {
      assert ValuesOf(answer, extract, EntryIds(entries)) == map[];
    }
  }

  lemma ValuesOfAdd<A, V>(answer: Id -> A, extract: A -> map<string, V>, ids: set<Id>, id: Id)
    ensures ValuesOf(answer, extract, ids + {id}) == ValuesOf(answer, extract, ids) + Keyed(id, extract(answer(id)))
  {
    ValuesOfUnion(answer, extract, ids, {id});
    ValuesOfOne(answer, extract, id);
  }

  lemma ValuesOfOne<A, V>(answer: Id -> A, extract: A -> map<string, V>, id: Id)
    ensures ValuesOf(answer, extract, {id}) == Keyed(id, extract(answer(id)))
  {
    var one, keyed := ValuesOf(answer, extract, {id}), Keyed(id, extract(answer(id)));
    forall k | k in keyed ensures k in one {
      assert k == (id, k.1);
    }
  }

  lemma ValuesOfUnion<A, V>(answer: Id -> A, extract: A -> map<string, V>, ids: set<Id>, more: set<Id>)
    ensures ValuesOf(answer, extract, ids + more) == ValuesOf(answer, extract, ids) + ValuesOf(answer, extract, more)
  {
  }

  /** Whatever the order of its entries, an answering reply gives the values of the requested ids. */
  lemma AnswerIsValuesOf<A(!new), V>(entries: seq<Entry<A>>, ids: seq<Id>, answer: Id -> A, extract: A -> map<string, V>)
    requires Answers(entries, ids, answer, extract)
    ensures Merged(entries, extract) == ValuesOf(answer, extract, IdSet(ids))
  {
    MergedIsValuesOf(entries, answer, extract);
    var asked := IdSet(ids);
    forall id | id in asked && id !in EntryIds(entries) ensures extract(answer(id)) == map[] {
      assert !HasEntry(entries, id);
    }
    assert EntryIds(entries) <= asked;
  }

  /** The replies to a chunked read: each chunk is answered or failed, and none raises. */
  ghost predicate Serves<A(!new), V>(replies: seq<Reply<seq<Entry<A>>>>, chunks: seq<seq<Id>>,
                                     answer: Id -> A, extract: A -> map<string, V>) {
    && |replies| == |chunks|
    && forall i :: 0 <= i < |replies| ==>
         (replies[i].NotOk? || (replies[i].Body? && Answers(replies[i].body, chunks[i], answer, extract)))
  }

  /** The ids of the chunks that were answered. */
  ghost function Survivors<T>(replies: seq<Reply<T>>, chunks: seq<seq<Id>>): set<Id>
    requires |replies| == |chunks|
  {
    set i, id | 0 <= i < |chunks| && replies[i].Body? && id in chunks[i] :: id
  }

  /**
   A chunked read refines its order-free meaning: it collects the values of exactly the
   resources whose chunk was answered.
   */
  lemma {:induction false} ReadIsSurvivorsValues<A(!new), V>(replies: seq<Reply<seq<Entry<A>>>>, chunks: seq<seq<Id>>,
                                                             answer: Id -> A, extract: A -> map<string, V>)
    requires Serves(replies, chunks, answer, extract)
    ensures ReadChunks(replies, extract) == Value(ValuesOf(answer, extract, Survivors(replies, chunks)))
  {
    hide Merged, Answers;
    if replies == [] {
      assert ValuesOf(answer, extract, Survivors(replies, chunks)) == map[];
    } else {
      var n := |replies| - 1;
      var before, last := Survivors(replies[..n], chunks[..n]), IdSet(chunks[n]);
      ReadIsSurvivorsValues(replies[..n], chunks[..n], answer, extract);
      SurvivorsStep(replies, chunks);
      if replies[n].Body? {
        AnswerIsValuesOf(replies[n].body, chunks[n], answer, extract);
        ValuesOfUnion(answer, extract, before, last);
      } else {
        assert Survivors(replies, chunks) == before;
      }
    }
  }

  lemma SurvivorsStep<T>(replies: seq<Reply<T>>, chunks: seq<seq<Id>>)
    requires |replies| == |chunks| > 0
    ensures var n := |replies| - 1;
      Survivors(replies, chunks) ==
        Survivors(replies[..n], chunks[..n]) + (if replies[n].Body? then IdSet(chunks[n]) else {})
  {
    var n := |replies| - 1;
    forall id | id in Survivors(replies, chunks)
      ensures id in Survivors(replies[..n], chunks[..n]) || (replies[n].Body? && id in chunks[n])
    {
      var i :| 0 <= i < |chunks| && replies[i].Body? && id in chunks[i];
      assert i < n ==> replies[..n][i] == replies[i] && chunks[..n][i] == chunks[i];
    }
    forall id | id in Survivors(replies[..n], chunks[..n]) ensures id in Survivors(replies, chunks) {
      var i :| 0 <= i < n && replies[..n][i].Body? && id in chunks[..n][i];
      assert replies[i].Body? && id in chunks[i];
    }
  }

  /** Without failures every requested id survives. */
  lemma AllSurvive<T>(replies: seq<Reply<T>>, chunks: seq<seq<Id>>)
    requires |replies| == |chunks|
    requires forall i :: 0 <= i < |replies| ==> replies[i].Body?
    ensures Survivors(replies, chunks) == IdsIn(chunks)
  {
  }

  /**
   Without failures the result depends only on the set of requested ids: not on the chunk size,
   the order of chunks, the order of entries within a reply, or repeated ids.
   */
  lemma ChunkingIrrelevant<A(!new), V>(replies: seq<Reply<seq<Entry<A>>>>, chunks: seq<seq<Id>>,
                                       replies': seq<Reply<seq<Entry<A>>>>, chunks': seq<seq<Id>>,
                                       answer: Id -> A, extract: A -> map<string, V>)
    requires Serves(replies, chunks, answer, extract) && Serves(replies', chunks', answer, extract)
    requires forall i :: 0 <= i < |replies| ==> replies[i].Body?
    requires forall i :: 0 <= i < |replies'| ==> replies'[i].Body?
    requires IdsIn(chunks) == IdsIn(chunks')
    ensures ReadChunks(replies, extract) == ReadChunks(replies', extract)
  {
    ReadIsSurvivorsValues(replies, chunks, answer, extract);
    ReadIsSurvivorsValues(replies', chunks', answer, extract);
    AllSurvive(replies, chunks);
    AllSurvive(replies', chunks');
  }

  // ----- failed chunks -----

  /** `part` is what is left of `whole` when only the samples of some ids are kept. */
  ghost predicate KeptFor(part: map<SampleKey, Sample>, whole: map<SampleKey, Sample>, ids: set<Id>) {
    && (forall k :: k in part <==> k in whole && k.0 in ids)
    && (forall k :: k in part ==> part[k] == whole[k])
  }

  lemma FewerPicks(part: map<SampleKey, Sample>, whole: map<SampleKey, Sample>, ids: set<Id>, start: int, nowMs: int)
    requires KeptFor(part, whole, ids)
    ensures var newest, newest' := Newest(start, whole), Newest(start, part);
      var full, left := Fresh(whole, newest, nowMs), Fresh(part, newest', nowMs);
      && newest' <= newest
      && (forall k :: k in full && k.0 in ids ==> k in left && left[k] == full[k])
      && (forall k :: k in left ==> k.0 in ids && k in whole && left[k] == whole[k].value)
      && (forall k :: k in left && k !in full ==> MissedNewest(whole, ids, newest, k))
  {
    var newest, newest' := Newest(start, whole), Newest(start, part);
    var full, left := Fresh(whole, newest, nowMs), Fresh(part, newest', nowMs);
    assert newest' <= newest;
    forall k | k in left && k !in full ensures MissedNewest(whole, ids, newest, k) {
      assert newest' < newest;
      var lost :| lost in whole && whole[lost].Stamp() == Some(newest);
      assert lost !in part;
    }
  }

  /** This sample is stale in the whole read, whose newest timestamp is that of a resource outside `ids`. */
  ghost predicate MissedNewest(whole: map<SampleKey, Sample>, ids: set<Id>, newest: int, k: SampleKey) {
    && k in whole && whole[k].Stamp().Some? && newest - whole[k].Stamp().value > STALE_AFTER_MS
    && exists lost :: lost in whole && lost.0 !in ids && whole[lost].Stamp() == Some(newest)
  }

  /** Two runs against the same per-resource server, one of them with failed chunks, pick related samples. */
  lemma FailedRunKeepsSurvivors(replies: seq<StatsReply>, failing: seq<StatsReply>, chunks: seq<seq<Id>>,
                                answer: Id -> seq<RawStat>, keys: seq<string>)
    requires Serves(replies, chunks, answer, StatExtract(keys)) && Serves(failing, chunks, answer, StatExtract(keys))
    requires forall i :: 0 <= i < |replies| ==> replies[i].Body?
    ensures ReadChunks(replies, StatExtract(keys)).Value? && ReadChunks(failing, StatExtract(keys)).Value?
    ensures KeptFor(ReadChunks(failing, StatExtract(keys)).value, ReadChunks(replies, StatExtract(keys)).value,
                    Survivors(failing, chunks))
  {
    hide *;
    var extract := StatExtract(keys);
    ReadIsSurvivorsValues(replies, chunks, answer, extract);
    ReadIsSurvivorsValues(failing, chunks, answer, extract);
    SameLength(replies, failing, chunks, answer, keys);
    AllSurvive(replies, chunks);
    SurvivorsListed(failing, chunks);
    ValuesKept(answer, keys, Survivors(failing, chunks), IdsIn(chunks));
  }

  /**
   Failed chunks lose only their own resources. Two bulk reads of the same ids from the same newest sample, at the same
   clock, against servers that answer alike; one of them fails some chunks. What the read without failures returns for
   the surviving ids, the other returns with the same values, and nothing for any other id. What it returns besides is a
   sample that the read without failures judged stale, only because a failed chunk carried the newest timestamp.
   */
  lemma FailedChunksLoseOnlyTheirOwn(api: Api, call: nat, failing: Api, failingCall: nat, ids: seq<Id>, keys: seq<string>,
                                     answer: Id -> seq<RawStat>, newestMs: int, nowMs: int)
    requires Serves(StatReplies(api, call, Chunks(ids), keys), Chunks(ids), answer, StatExtract(keys))
    requires forall i :: 0 <= i < |Chunks(ids)| ==> StatReplies(api, call, Chunks(ids), keys)[i].Body?
    requires Serves(StatReplies(failing, failingCall, Chunks(ids), keys), Chunks(ids), answer, StatExtract(keys))
    ensures var surviving := Survivors(StatReplies(failing, failingCall, Chunks(ids), keys), Chunks(ids));
      var picked := ValuesOf(answer, StatExtract(keys), IdSet(ids));
      var full := StatsResult(api, call, ids, keys, newestMs, nowMs);
      var left := StatsResult(failing, failingCall, ids, keys, newestMs, nowMs);
      && full.Value? && left.Value?
      && (forall k :: k in full.value && k.0 in surviving ==> k in left.value && left.value[k] == full.value[k])
      && (forall k :: k in left.value ==> k.0 in surviving && k in picked && left.value[k] == picked[k].value)
      && (forall k :: k in left.value && k !in full.value ==>
            MissedNewest(picked, surviving, Newest(newestMs, picked), k))
  {
    hide Serves, Chunks, StatReplies, ReadChunks, StatExtract, Survivors, ValuesOf, IdSet, KeptFor, Fresh, Newest, MissedNewest;
    var chunks := Chunks(ids);
    var replies, failed := StatReplies(api, call, chunks, keys), StatReplies(failing, failingCall, chunks, keys);
    var surviving := Survivors(failed, chunks);
    FailedRunKeepsSurvivors(replies, failed, chunks, answer, keys);
    ReadIsSurvivorsValues(replies, chunks, answer, StatExtract(keys));
    AllSurvive(replies, chunks);
    ChunkIds(ids);
    FewerPicks(ReadChunks(failed, StatExtract(keys)).value, ReadChunks(replies, StatExtract(keys)).value, surviving, newestMs, nowMs);
  }

  lemma SurvivorsListed<T>(replies: seq<Reply<T>>, chunks: seq<seq<Id>>)
    requires |replies| == |chunks|
    ensures Survivors(replies, chunks) <= IdsIn(chunks)
  {
  }

  lemma ValuesKept(answer: Id -> seq<RawStat>, keys: seq<string>, kept: set<Id>, ids: set<Id>)
    requires kept <= ids
    ensures KeptFor(ValuesOf(answer, StatExtract(keys), kept), ValuesOf(answer, StatExtract(keys), ids), kept)
  {
    hide StatsOf;
  }

  lemma SameLength(replies: seq<StatsReply>, failing: seq<StatsReply>, chunks: seq<seq<Id>>,
                   answer: Id -> seq<RawStat>, keys: seq<string>)
    requires Serves(replies, chunks, answer, StatExtract(keys)) && Serves(failing, chunks, answer, StatExtract(keys))
    ensures |replies| == |chunks| == |failing|
  {
  }

  // ----- a run of reads, from a given reference on -----

  /** A bulk stats read: what it picks, and the clock when it is judged. */
  datatype Read = Read(picked: map<SampleKey, Sample>, nowMs: int)

  /** The newest timestamp after some reads. */
  ghost function Reference(run: seq<Read>, start: int): int {
    if run == [] then start else Newest(Reference(run[..|run| - 1], start), run[|run| - 1].picked)
  }

  /** What each of these reads returns. */
  ghost function Kept(run: seq<Read>, start: int): (kept: seq<map<SampleKey, real>>)
    ensures |kept| == |run|
  {
    if run == [] then []
    else
      var last := run[|run| - 1];
      Kept(run[..|run| - 1], start) + [Fresh(last.picked, Reference(run, start), last.nowMs)]
  }

  /** At most 10 minutes behind a reference. */
  predicate Recent(s: Sample, reference: int) {
    s.Stamp().Some? && reference - s.Stamp().value <= STALE_AFTER_MS
  }

  /** Every sample these reads keep from `start` on is within the limit of another reference. */
  ghost predicate WithinLimit(run: seq<Read>, start: int, other: int) {
    forall i, k :: 0 <= i < |run| && k in Kept(run, start)[i] && k in run[i].picked ==> Recent(run[i].picked[k], other)
  }

  lemma {:induction false} ReferenceAbove(run: seq<Read>, low: int, high: int)
    requires low <= high
    ensures Reference(run, high) == MaxInt(high, Reference(run, low))
    ensures low <= Reference(run, low)
  {
    if run != [] {
      var init, last := run[..|run| - 1], run[|run| - 1];
      ReferenceAbove(init, low, high);
      NewestAbove(last.picked, Reference(init, low), high);
    }
  }

  lemma NewestAbove(picked: map<SampleKey, Sample>, low: int, high: int)
    ensures Newest(MaxInt(high, low), picked) == MaxInt(high, Newest(low, picked))
    ensures low <= Newest(low, picked)
  {
    NewestUnique(Newest(MaxInt(high, low), picked), MaxInt(high, Newest(low, picked)), MaxInt(high, low), picked);
  }

  /**
   The same reads from a later reference keep the same exactly when everything they keep from the
   earlier one is also within the limit of the later one; otherwise they keep less, and nothing else.
   */
  lemma {:induction false} LaterReferenceKeeps(run: seq<Read>, low: int, high: int)
    requires low <= high
    ensures Kept(run, high) == Kept(run, low) <==> WithinLimit(run, low, high)
    ensures forall i :: 0 <= i < |run| ==> Kept(run, high)[i].Items <= Kept(run, low)[i].Items
  {
    if run != [] {
      var n := |run| - 1;
      var init, last := run[..n], run[n];
      LaterReferenceKeeps(init, low, high);
      ReferenceAbove(run, low, high);
      LaterKeepsLess(last, Reference(run, low), high);
      WithinLimitStep(run, low, high);
      assert Kept(run, high) == Kept(init, high) + [Fresh(last.picked, Reference(run, high), last.nowMs)];
      assert Kept(run, low) == Kept(init, low) + [Fresh(last.picked, Reference(run, low), last.nowMs)];
      SameEnds(Kept(init, high), Fresh(last.picked, Reference(run, high), last.nowMs),
               Kept(init, low), Fresh(last.picked, Reference(run, low), last.nowMs));
    }
  }

  lemma SameEnds<T>(a: seq<T>, x: T, b: seq<T>, y: T)
    ensures a + [x] == b + [y] <==> a == b && x == y
  {
    if a + [x] == b + [y] {
      assert (a + [x])[..|a|] == a && (b + [y])[..|b|] == b;
      assert (a + [x])[|a|] == x && (b + [y])[|b|] == y;
    }
  }

  lemma LaterKeepsLess(read: Read, low: int, high: int)
    ensures var before, after := Fresh(read.picked, low, read.nowMs), Fresh(read.picked, MaxInt(high, low), read.nowMs);
      && after.Items <= before.Items
      && (after == before <==> forall k :: k in before ==> Recent(read.picked[k], high))
  {
    var before, after := Fresh(read.picked, low, read.nowMs), Fresh(read.picked, MaxInt(high, low), read.nowMs);
    assert forall k :: k in after <==> k in before && Recent(read.picked[k], high);
    if forall k :: k in before ==> Recent(read.picked[k], high) {
      assert after == before;
    } else {
      var k :| k in before && !Recent(read.picked[k], high);
      assert k !in after;
    }
  }

  lemma WithinLimitStep(run: seq<Read>, low: int, high: int)
    requires run != []
    ensures var n := |run| - 1;
      WithinLimit(run, low, high) <==>
        && WithinLimit(run[..n], low, high)
        && forall k :: k in Fresh(run[n].picked, Reference(run, low), run[n].nowMs) ==>
             Recent(run[n].picked[k], high)
  {
    hide IsFresh, Recent, Reference;
    var n := |run| - 1;
    var kept, init := Kept(run, low), Kept(run[..n], low);
    assert kept == init + [Fresh(run[n].picked, Reference(run, low), run[n].nowMs)];
    assert forall i :: 0 <= i < n ==> kept[i] == init[i] && run[..n][i] == run[i];
    assert kept[n] == Fresh(run[n].picked, Reference(run, low), run[n].nowMs);
  }

  /** Three reads, one after the other. */
  lemma ThreeKept(a: Read, b: Read, c: Read, start: int)
    ensures var x := Newest(start, a.picked);
      var y := Newest(x, b.picked);
      var z := Newest(y, c.picked);
      && Reference([a, b, c], start) == z
      && Kept([a, b, c], start) == [Fresh(a.picked, x, a.nowMs), Fresh(b.picked, y, b.nowMs), Fresh(c.picked, z, c.nowMs)]
  {
    hide Newest, Fresh;
    assert [a, b, c][..2] == [a, b] && [a, b][..1] == [a] && [a][..0] == [];
    assert Kept([], start) == [] && Reference([], start) == start;
    assert Kept([a], start) == [Fresh(a.picked, Newest(start, a.picked), a.nowMs)];
    assert Kept([a, b], start) == Kept([a], start) + [Fresh(b.picked, Newest(Newest(start, a.picked), b.picked), b.nowMs)];
  }

  /** Reads after reads: the second run starts from the reference the first leaves. */
  lemma {:induction false} ReadsAfter(first: seq<Read>, second: seq<Read>, start: int)
    ensures Reference(first + second, start) == Reference(second, Reference(first, start))
    ensures Kept(first + second, start) == Kept(first, start) + Kept(second, Reference(first, start))
  {
    hide *;
    if second == [] {
      assert first + second == first;
      EmptyRun(Reference(first, start));
    } else {
      var n := |second| - 1;
      assert (first + second)[..|first| + n] == first + second[..n];
      ReadsAfter(first, second[..n], start);
      LastRead(first + second, start);
      LastRead(second, Reference(first, start));
    }
  }

  lemma EmptyRun(start: int)
    ensures Reference([], start) == start && Kept([], start) == []
  {
  }

  lemma LastRead(run: seq<Read>, start: int)
    requires run != []
    ensures var init, last := run[..|run| - 1], run[|run| - 1];
      && Reference(run, start) == Newest(Reference(init, start), last.picked)
      && Kept(run, start) == Kept(init, start) + [Fresh(last.picked, Reference(run, start), last.nowMs)]
  {
    hide Newest, Fresh;
  }

  // ----- the staleness reference is cycle-wide -----

  /** `own` is the newest timestamp of a request's own samples. */
  ghost predicate OwnNewest(own: int, samples: map<SampleKey, Sample>) {
    && (exists k :: k in samples && samples[k].Stamp() == Some(own))
    && (forall k :: k in samples && samples[k].Stamp().Some? ==> samples[k].Stamp().value <= own)
  }

  /**
   docs/METRICS.md takes the newest sample of the same request as the reference; the code takes
   that of the whole cycle. The two agree exactly when every sample that is fresh within its own
   request is also within the limit of the newest timestamp the cycle had seen before.
   */
  lemma CycleWideReference(samples: map<SampleKey, Sample>, own: int, before: int, nowMs: int)
    requires OwnNewest(own, samples)
    ensures Fresh(samples, Newest(before, samples), nowMs) == Fresh(samples, own, nowMs)
      <==> (forall k :: k in Fresh(samples, own, nowMs) ==> before - samples[k].Stamp().value <= STALE_AFTER_MS)
  {
    var newest := Newest(before, samples);
    assert newest == MaxInt(before, own) by {
      var k :| k in samples && samples[k].Stamp() == Some(own);
      NewestUnique(newest, MaxInt(before, own), before, samples);
    }
    var cycle, request := Fresh(samples, newest, nowMs), Fresh(samples, own, nowMs);
    if forall k :: k in request ==> before - samples[k].Stamp().value <= STALE_AFTER_MS {
      assert forall k :: k in samples ==> (k in request <==> IsFresh(samples[k], own, nowMs));
      assert forall k :: k in samples ==> (IsFresh(samples[k], newest, nowMs) <==> IsFresh(samples[k], own, nowMs));
      assert cycle == request;
    }
    if cycle == request {
      forall k | k in request
        ensures before - samples[k].Stamp().value <= STALE_AFTER_MS
      {
        assert k in cycle;
      }
    }
  }

  /** A lone sample eleven minutes old, when an earlier request returned one of now: fresh in its request, dropped by the cycle. */
  lemma CycleReferenceDropsASample(k: SampleKey, value: real)
    ensures var samples := map[k := Sample(value, [0])];
      && OwnNewest(0, samples)
      && Fresh(samples, 0, 660_000) == map[k := value]
      && Fresh(samples, Newest(660_000, samples), 660_000) == map[]
  {
    var samples := map[k := Sample(value, [0])];
    assert samples[k].Stamp() == Some(0);
    NewestUnique(Newest(660_000, samples), 660_000, 660_000, samples);
  }
}
