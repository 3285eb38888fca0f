/** Counted requests, bulk history with staleness, and the paged inventory query (app/suite_api.py). */
module SuiteApi {
  import opened Common
  import opened Constants
  import opened Sums
  import opened Server

  // ----- samples and their freshness -----

  /** A picked stat: its latest value and the timestamps that came with it. */
  datatype Sample = Sample(value: real, timestamps: seq<int>) {
    function Stamp(): Option<int> {
      if timestamps == [] then None else Some(timestamps[|timestamps| - 1])
    }
  }

  type SampleKey = (Id, string)

  predicate IsStale(sampleMs: int, newestMs: int, nowMs: int) {
    newestMs - sampleMs > STALE_AFTER_MS || nowMs - sampleMs > STALE_AFTER_MS + CLOCK_SKEW_TOLERANCE_MS
  }

  /** A sample counts when it has a timestamp that is not stale. */
  predicate IsFresh(s: Sample, newestMs: int, nowMs: int) {
    s.Stamp().Some? && !IsStale(s.Stamp().value, newestMs, nowMs)
  }

  /** The order-free meaning of a bulk read: the fresh ones of the picked samples. */
  function Fresh(picked: map<SampleKey, Sample>, newestMs: int, nowMs: int): map<SampleKey, real> {
    map k | k in picked && IsFresh(picked[k], newestMs, nowMs) :: picked[k].value
  }

  /** A stat counts when its last timestamp is at most 10 minutes behind the newest sample and at most 15 behind the clock. */
  lemma FreshWithin(picked: map<SampleKey, Sample>, newestMs: int, nowMs: int, k: SampleKey)
    ensures k in Fresh(picked, newestMs, nowMs) <==>
      && k in picked && picked[k].timestamps != []
      && var last := picked[k].timestamps[|picked[k].timestamps| - 1];
         newestMs - last <= 10 * 60 * 1000 && nowMs - last <= 15 * 60 * 1000
  {
  }

  /** `newest` is the largest of `start` and all timestamps of `samples`. */
  ghost predicate IsNewest(newest: int, start: int, samples: map<SampleKey, Sample>) {
    && start <= newest
    && (forall k :: k in samples && samples[k].Stamp().Some? ==> samples[k].Stamp().value <= newest)
    && (newest == start || exists k :: k in samples && samples[k].Stamp() == Some(newest))
  }

  ghost function Newest(start: int, samples: map<SampleKey, Sample>): (newest: int)
    ensures IsNewest(newest, start, samples)
  {
    if samples == map[] then start
    else
      var k :| k in samples;
      var rest := Newest(start, samples - {k});
      assert forall j :: j in samples && j != k ==> j in samples - {k} && samples[j] == (samples - {k})[j];
      if samples[k].Stamp().Some? then MaxInt(samples[k].Stamp().value, rest) else rest
  }

  lemma NewestUnique(a: int, b: int, start: int, samples: map<SampleKey, Sample>)
    requires IsNewest(a, start, samples) && IsNewest(b, start, samples)
    ensures a == b
  {
  }

  /** The picked samples with stat key `key` that are stale. */
  ghost function StaleUnder(picked: map<SampleKey, Sample>, key: string, newestMs: int, nowMs: int): set<SampleKey> {
    set k | k in picked && k.1 == key && !IsFresh(picked[k], newestMs, nowMs)
  }

  function CountOf(counts: map<string, nat>, key: string): nat {
    if key in counts then counts[key] else 0
  }

  // ----- the counters of one cycle -----

  ghost function Failures(log: seq<bool>): nat {
    if log == [] then 0 else Failures(log[..|log| - 1]) + if log[|log| - 1] then 0 else 1
  }

  ghost function PickedIn(history: seq<map<SampleKey, Sample>>): nat {
    if history == [] then 0 else PickedIn(history[..|history| - 1]) + |history[|history| - 1]|
  }

  /** The newest timestamp over a sequence of reads, starting from zero. */
  ghost function NewestIn(history: seq<map<SampleKey, Sample>>): int {
    if history == [] then 0 else Newest(NewestIn(history[..|history| - 1]), history[|history| - 1])
  }

  /** Calls made and failed, stale stats by key, and the newest sample timestamp of one collection cycle. */
  class CallStats {
    var calls: nat
    var failures: nat
    var stale: nat
    var staleKeys: map<string, nat>
    var newestMs: int

    /** Which requests of the cycle succeeded, in order. */
    ghost var log: seq<bool>
    /** The samples every completed bulk stats read of the cycle picked. */
    ghost var history: seq<map<SampleKey, Sample>>
    /** How many samples those reads returned as fresh. */
    ghost var returned: nat

    /** What every operation of a cycle keeps. */
    ghost predicate Valid()
      reads this
    {
      && calls == |log|
      && failures == Failures(log)
      && newestMs == NewestIn(history)
      && stale + returned == PickedIn(history)
      && Total(staleKeys) == stale
    }

    constructor ()
      ensures Valid() && calls == 0 && log == [] && history == []
    {
      calls, failures, stale, staleKeys, newestMs := 0, 0, 0, map[], 0;
      log, history, returned := [], [], 0;
    }

    method Reset()
      modifies this
      ensures Valid() && calls == 0 && log == [] && history == []
    {
      calls, failures, stale, staleKeys, newestMs := 0, 0, 0, map[], 0;
      log, history, returned := [], [], 0;
    }

    method CountStale(statkey: string)
      requires Total(staleKeys) == stale
      modifies this`stale, this`staleKeys
      ensures Total(staleKeys) == stale && stale == old(stale) + 1
      ensures forall key :: CountOf(staleKeys, key) == CountOf(old(staleKeys), key) + (if key == statkey then 1 else 0)
    {
      TotalIncrement(staleKeys, statkey);
      stale := stale + 1;
      staleKeys := staleKeys[statkey := (if statkey in staleKeys then staleKeys[statkey] else 0) + 1];
    }

    /** Sends one request: counted always, and counted as failed exactly once when it fails. */
    method Request<T>(reply: Reply<T>) returns (r: Outcome<Option<T>>)
      requires Valid()
      modifies this`calls, this`failures, this`log
      ensures Valid()
      ensures log == old(log) + [Succeeded(reply)]
      ensures r == match reply
                   case Body(body) => Value(Some(body))
                   case NotOk => Value(None)
                   case Raised => Raise(OtherError)
                   case Malformed => Raise(OtherError)
    {
      calls := calls + 1;
      log := log + [Succeeded(reply)];
      assert log[..|log| - 1] == old(log);
      match reply
      case Body(body) =>
        r := Value(Some(body));
      case NotOk =>
        failures := failures + 1;
        r := Value(None);
      case Raised =>
        failures := failures + 1;
        r := Raise(OtherError);
      case Malformed =>
        r := Raise(OtherError);
    }

    /** The value, or no data and one more stale stat. Notes the sample's timestamp first. */
    method FreshValue(statkey: string, s: Sample, nowMs: int) returns (value: Option<real>)
      requires Total(staleKeys) == stale
      modifies this`stale, this`staleKeys, this`newestMs
      ensures Total(staleKeys) == stale
      ensures newestMs == if s.Stamp().Some? then MaxInt(old(newestMs), s.Stamp().value) else old(newestMs)
      ensures value == if IsFresh(s, newestMs, nowMs) then Some(s.value) else None
      ensures stale == old(stale) + if value.Some? then 0 else 1
      ensures forall key :: CountOf(staleKeys, key)
                == CountOf(old(staleKeys), key) + (if value.None? && key == statkey then 1 else 0)
    {
      if s.timestamps == [] {
        CountStale(statkey);
        return None;
      }
      var sampleMs := s.timestamps[|s.timestamps| - 1];
      newestMs := MaxInt(newestMs, sampleMs);
      if IsStale(sampleMs, newestMs, nowMs) {
        CountStale(statkey);
        return None;
      }
      return Some(s.value);
    }

    /** First pass: every timestamp is noted before any sample is judged, in any order. */
    method NoteNewest(samples: map<SampleKey, Sample>)
      modifies this`newestMs
      ensures newestMs == Newest(old(newestMs), samples)
    {
      var todo := samples.Keys;
      while todo != {}
        invariant todo <= samples.Keys
        invariant old(newestMs) <= newestMs
        invariant forall k :: k in samples && k !in todo && samples[k].Stamp().Some? ==> samples[k].Stamp().value <= newestMs
        invariant newestMs == old(newestMs) || exists k :: k in samples && samples[k].Stamp() == Some(newestMs)
      {
        var k :| k in todo;
        if samples[k].timestamps != [] {
          newestMs := MaxInt(newestMs, samples[k].timestamps[|samples[k].timestamps| - 1]);
        }
        todo := todo - {k};
      }
      NewestUnique(newestMs, Newest(old(newestMs), samples), old(newestMs), samples);
    }

    /**
     Second pass: judges every sample, in any order. The newest timestamp covers all of them
     already, so judging one cannot change the verdict on another.
     */
    method Judge(samples: map<SampleKey, Sample>, nowMs: int) returns (kept: map<SampleKey, real>)
      requires Total(staleKeys) == stale
      requires forall k :: k in samples && samples[k].Stamp().Some? ==> samples[k].Stamp().value <= newestMs
      modifies this`stale, this`staleKeys, this`newestMs
      ensures newestMs == old(newestMs) && Total(staleKeys) == stale
      ensures kept == Fresh(samples, newestMs, nowMs)
      ensures stale + |kept| == old(stale) + |samples|
      ensures forall key :: CountOf(staleKeys, key)
                == CountOf(old(staleKeys), key) + |StaleUnder(samples, key, newestMs, nowMs)|
    {
      hide Fresh, StaleUnder, IsFresh, CountOf, Total;
      kept := map[];
      var todo := samples.Keys;
      JudgeNone(newestMs, nowMs);
      assert samples - todo == map[];
      while todo != {}
        invariant todo <= samples.Keys
        invariant newestMs == old(newestMs) && Total(staleKeys) == stale
        invariant kept == Fresh(samples - todo, newestMs, nowMs)
        invariant stale + |kept| == old(stale) + |samples| - |todo|
        invariant forall key :: CountOf(staleKeys, key)
                    == CountOf(old(staleKeys), key) + |StaleUnder(samples - todo, key, newestMs, nowMs)|
      {
        var k :| k in todo;
        var value := FreshValue(k.1, samples[k], nowMs);
        JudgeOne(samples - todo, k, samples[k], newestMs, nowMs);
        assert samples - (todo - {k}) == (samples - todo)[k := samples[k]];
        if value.Some? {
          kept := kept[k := value.value];
        }
        todo := todo - {k};
      }
      assert samples - todo == samples;
    }
  }

  lemma LogIsCalls(stats: CallStats)
    requires stats.Valid()
    ensures stats.calls == |stats.log|
  {
  }

  lemma JudgeNone(newestMs: int, nowMs: int)
    ensures Fresh(map[], newestMs, nowMs) == map[]
    ensures forall key :: StaleUnder(map[], key, newestMs, nowMs) == {}
  {
  }

  /** What judging one more sample adds to the fresh ones and to the stale ones. */
  lemma JudgeOne(seen: map<SampleKey, Sample>, k: SampleKey, s: Sample, newestMs: int, nowMs: int)
    requires k !in seen
    ensures Fresh(seen[k := s], newestMs, nowMs) ==
            if IsFresh(s, newestMs, nowMs) then Fresh(seen, newestMs, nowMs)[k := s.value] else Fresh(seen, newestMs, nowMs)
    ensures k !in Fresh(seen, newestMs, nowMs)
    ensures forall key :: |StaleUnder(seen[k := s], key, newestMs, nowMs)|
              == |StaleUnder(seen, key, newestMs, nowMs)| + (if key == k.1 && !IsFresh(s, newestMs, nowMs) then 1 else 0)
  {
    hide IsFresh;
    forall key ensures |StaleUnder(seen[k := s], key, newestMs, nowMs)|
              == |StaleUnder(seen, key, newestMs, nowMs)| + (if key == k.1 && !IsFresh(s, newestMs, nowMs) then 1 else 0)
    {
      var before, after := StaleUnder(seen, key, newestMs, nowMs), StaleUnder(seen[k := s], key, newestMs, nowMs);
      if key == k.1 && !IsFresh(s, newestMs, nowMs) {
        assert after == before + {k};
      } else {
        assert after == before;
      }
    }
  }
}
