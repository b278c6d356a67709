/** The in-memory query caches of core/cache.py: TTL, capacity, exact and semantic lookup. */
module QueryCaching {
  import opened Sets
  import opened Text
  import opened CacheKeys
  import opened Similarity

  // A cached response dictionary; `topK` is the `_top_k` field the cache adds.
  datatype Answer = Answer(status: string, content: string, topK: Option<int>)

  datatype Entry = Entry(key: string, answer: Answer, vector: Option<Vector>, at: real)

  // A dictionary in insertion order; keys are distinct.
  type Store = seq<Entry>

  datatype Config = Config(ttl: real, maxSize: nat)

  ghost predicate DistinctKeys(store: Store) {
    forall i, j :: 0 <= i < j < |store| ==> store[i].key != store[j].key
  }

  function Stale(config: Config, e: Entry, now: real): bool {
    now - e.at > config.ttl
  }

  /* ---- dictionary operations ---- */

  // Position of a key, or the length when absent.
  function IndexOf(store: Store, key: string): (i: nat)
    ensures i <= |store|
    ensures i < |store| ==> store[i].key == key
    ensures forall j :: 0 <= j < i ==> store[j].key != key
  {
    if store == [] then 0
    else if store[0].key == key then 0
    else 1 + IndexOf(store[1..], key)
  }

  function Without(store: Store, i: nat): Store
    requires i < |store|
  {
    store[..i] + store[i + 1..]
  }

  // Assigning to a key keeps its place in the order; a new key goes last.
  function Put(store: Store, e: Entry): Store {
    var i := IndexOf(store, e.key);
    if i < |store| then store[i := e] else store + [e]
  }

  // The first entry with the least timestamp, as min(..., key=...) picks it.
  ghost predicate IsOldest(store: Store, i: nat) {
    && i < |store|
    && (forall j :: 0 <= j < |store| ==> store[i].at <= store[j].at)
    && (forall j :: 0 <= j < i ==> store[i].at < store[j].at)
  }

  function Oldest(store: Store): (i: nat)
    requires store != []
    ensures IsOldest(store, i)
  {
    if |store| == 1 then 0
    else
      var rest := Oldest(store[..|store| - 1]);
      if store[|store| - 1].at < store[rest].at then |store| - 1 else rest
  }

  function Evicted(config: Config, store: Store): Store {
    if store != [] && |store| >= config.maxSize then Without(store, Oldest(store)) else store
  }

  function KeptPart(config: Config, e: Entry, now: real): Store {
    if Stale(config, e, now) then [] else [e]
  }

  function Purged(config: Config, store: Store, now: real): (r: Store)
    ensures |r| <= |store|
  {
    if store == [] then []
    else
      var last := |store| - 1;
      Purged(config, store[..last], now) + KeptPart(config, store[last], now)
  }

  /* ---- the public operations ---- */

  function EntryFor(query: string, topK: int, result: Answer, vector: Option<Vector>, now: real): Entry {
    Entry(KeyText(query, topK), result.(topK := Some(topK)), vector, now)
  }

  function AfterSet(config: Config, store: Store, e: Entry): Store {
    if e.answer.status != "ok" then store else Put(Evicted(config, store), e)
  }

  function AfterGet(config: Config, store: Store, key: string, now: real): (Store, Option<Answer>) {
    var i := IndexOf(store, key);
    if i == |store| then (store, None)
    else if Stale(config, store[i], now) then (Without(store, i), None)
    else (store, Some(store[i].answer))
  }

  // An entry the semantic lookup may return: fresh, embedded, same top_k, similar enough.
  // The scan starts from a best score of -1, so a score of exactly -1 never wins.
  predicate Candidate(
    config: Config, sqrt: real -> real, e: Entry, probe: Vector, topK: int, threshold: real, now: real)
  {
    && !Stale(config, e, now)
    && e.vector.Some?
    && (e.answer.topK.None? || e.answer.topK == Some(topK))
    && Cosine(sqrt, probe, e.vector.value) >= threshold
    && Cosine(sqrt, probe, e.vector.value) > -1.0
  }

  function Score(sqrt: real -> real, e: Entry, probe: Vector): real {
    if e.vector.Some? then Cosine(sqrt, probe, e.vector.value) else -1.0
  }

  // The first best-scoring candidate among the first n entries.
  ghost predicate IsBestAmong(config: Config, sqrt: real -> real, store: Store, n: nat, probe: Vector, topK: int,
                              threshold: real, now: real, i: nat)
    requires n <= |store|
  {
    && i < n
    && Candidate(config, sqrt, store[i], probe, topK, threshold, now)
    && (forall j :: 0 <= j < n && Candidate(config, sqrt, store[j], probe, topK, threshold, now) ==>
          Score(sqrt, store[j], probe) <= Score(sqrt, store[i], probe))
    && (forall j :: 0 <= j < i && Candidate(config, sqrt, store[j], probe, topK, threshold, now) ==>
          Score(sqrt, store[j], probe) < Score(sqrt, store[i], probe))
  }

  ghost predicate IsBest(config: Config, sqrt: real -> real, store: Store, probe: Vector, topK: int,
                         threshold: real, now: real, i: nat) {
    IsBestAmong(config, sqrt, store, |store|, probe, topK, threshold, now, i)
  }

  class SemanticSqlCache {
    const config: Config
    const sqrt: real -> real
    var store: Store

    constructor (config: Config, sqrt: real -> real)
      ensures this.config == config && this.sqrt == sqrt && store == []
    {
      this.config, this.sqrt, store := config, sqrt, [];
    }

    method GetExact(query: string, topK: int, now: real) returns (hit: Option<Answer>)
      modifies this
      ensures (store, hit) == AfterGet(config, old(store), KeyText(query, topK), now)
    {
      var i := IndexOf(store, KeyText(query, topK));
      if i == |store| {
        return None;
      }
      var entry := store[i];
      if now - entry.at > config.ttl {
        store := store[..i] + store[i + 1..];
        return None;
      }
      hit := Some(entry.answer);
    }

    // Scans for the best candidate and drops the stale entries it meets.
    method GetSemantic(probe: Vector, topK: int, threshold: real, now: real) returns (hit: Option<Answer>)
      modifies this
      ensures store == Purged(config, old(store), now)
      ensures hit.None? <==>
                forall i :: 0 <= i < |old(store)| ==>
                  !Candidate(config, sqrt, old(store)[i], probe, topK, threshold, now)
      ensures hit.Some? ==>
                exists i: nat :: IsBest(config, sqrt, old(store), probe, topK, threshold, now, i)
                                 && hit == Some(old(store)[i].answer)
    {
      hide Cosine;
      var bestScore := -1.0;
      var kept: Store := [];
      hit := None;
      ghost var best: nat := 0;
      for n := 0 to |store|
        invariant store == old(store)
        invariant kept == Purged(config, store[..n], now)
        invariant hit.None? ==> bestScore == -1.0
        invariant hit.None? ==>
                    forall i :: 0 <= i < n ==> !Candidate(config, sqrt, store[i], probe, topK, threshold, now)
        invariant hit.Some? ==>
                    && IsBestAmong(config, sqrt, store, n, probe, topK, threshold, now, best)
                    && hit == Some(store[best].answer)
                    && bestScore == Score(sqrt, store[best], probe)
      {
        var entry := store[n];
        assert store[..n + 1][..n] == store[..n];
        if now - entry.at > config.ttl {
          continue;
        }
        kept := kept + [entry];
        if entry.vector.None? {
          continue;
        }
        if entry.answer.topK.Some? && entry.answer.topK.value != topK {
          continue;
        }
        var score := Cosine(sqrt, probe, entry.vector.value);
        if score >= threshold && score > bestScore {
          bestScore := score;
          hit := Some(entry.answer);
          best := n;
        }
      }
      assert store[..|store|] == store;
      store := kept;
    }

    method Set(query: string, topK: int, result: Answer, embedding: Option<Vector>, now: real)
      modifies this
      ensures store == AfterSet(config, old(store), EntryFor(query, topK, result, embedding, now))
    {
      if result.status != "ok" {
        return;
      }
      if store != [] && |store| >= config.maxSize {
        var oldest := OldestKey();
        store := store[..oldest] + store[oldest + 1..];
      }
      store := Put(store, EntryFor(query, topK, result, embedding, now));
    }

    // min over the timestamps, first wins.
    method OldestKey() returns (oldest: nat)
      requires store != []
      ensures oldest == Oldest(store)
    {
      oldest := 0;
      for n := 1 to |store|
        invariant oldest < n && IsOldest(store[..n], oldest)
      {
        if store[n].at < store[oldest].at {
          oldest := n;
        }
      }
      assert store[..|store|] == store;
      OldestIsUnique(store, oldest, Oldest(store));
    }

    method InvalidateAll() returns (count: nat)
      modifies this
      ensures store == [] && count == |old(store)|
    {
      count := |store|;
      store := [];
    }
  }

  lemma OldestIsUnique(store: Store, i: nat, j: nat)
    requires IsOldest(store, i) && IsOldest(store, j)
    ensures i == j
  {
    assert store[i].at <= store[j].at <= store[i].at;
  }

  /* ---- what each operation does to the entries ---- */

  lemma WithoutFacts(store: Store, i: nat)
    requires DistinctKeys(store) && i < |store|
    ensures DistinctKeys(Without(store, i)) && |Without(store, i)| == |store| - 1
    ensures forall x :: x in Without(store, i) <==> x in store && x != store[i]
  {
    var rest := Without(store, i);
    forall x
      ensures x in rest <==> x in store && x != store[i]
    {
      if x in store && x != store[i] {
        var j :| 0 <= j < |store| && store[j] == x;
        assert rest[if j < i then j else j - 1] == x;
      }
      if x in rest {
        var j :| 0 <= j < |rest| && rest[j] == x;
        assert x == store[if j < i then j else j + 1];
      }
    }
  }

  lemma PutFacts(store: Store, e: Entry)
    requires DistinctKeys(store)
    ensures DistinctKeys(Put(store, e))
    ensures |Put(store, e)| <= |store| + 1
    ensures forall x :: x in Put(store, e) <==> x == e || (x in store && x.key != e.key)
  {
    var put, i := Put(store, e), IndexOf(store, e.key);
    forall x
      ensures x in put <==> x == e || (x in store && x.key != e.key)
    {
      if x == e {
        assert put[i] == e;
      } else if x in store && x.key != e.key {
        var j :| 0 <= j < |store| && store[j] == x;
        assert put[j] == x;
      }
    }
  }

  lemma {:induction false} PurgedKeeps(config: Config, store: Store, now: real)
    requires DistinctKeys(store)
    ensures DistinctKeys(Purged(config, store, now))
    ensures forall x :: x in Purged(config, store, now) <==> x in store && !Stale(config, x, now)
  {
    hide Stale;
    if store != [] {
      var last := |store| - 1;
      PurgedKeeps(config, store[..last], now);
      assert forall x :: x in store <==> x == store[last] || x in store[..last];
      assert forall x :: x in store[..last] ==> x.key != store[last].key;
      var rest := Purged(config, store[..last], now);
      assert forall j :: 0 <= j < |rest| ==> rest[j] in store[..last];
    }
  }

  lemma PurgedFacts(config: Config, store: Store, now: real)
    requires DistinctKeys(store)
    ensures DistinctKeys(Purged(config, store, now))
    ensures forall x :: x in Purged(config, store, now) <==> x in store && now - x.at <= config.ttl
  {
    hide Purged;
    PurgedKeeps(config, store, now);
  }

  /* ---- the cache refines the plain log of calls ---- */

  datatype Op =
    | SetCall(query: string, topK: int, result: Answer, vector: Option<Vector>)
    | GetCall(query: string, topK: int)
    | SemanticCall
    | InvalidateCall

  datatype Call = Call(op: Op, at: real)

  function Apply(config: Config, store: Store, call: Call): Store {
    match call.op
    case SetCall(query, topK, result, vector) =>
      AfterSet(config, store, EntryFor(query, topK, result, vector, call.at))
    case GetCall(query, topK) => AfterGet(config, store, KeyText(query, topK), call.at).0
    case SemanticCall => Purged(config, store, call.at)
    case InvalidateCall => []
  }

  function StoreAfter(config: Config, calls: seq<Call>): Store {
    if calls == [] then []
    else Apply(config, StoreAfter(config, calls[..|calls| - 1]), calls[|calls| - 1])
  }

  // The entry a call writes, if it is an accepted set.
  function Written(call: Call): Option<Entry> {
    match call.op
    case SetCall(query, topK, result, vector) =>
      if result.status == "ok" then Some(EntryFor(query, topK, result, vector, call.at)) else None
    case _ => None
  }

  // The latest accepted set for the key since the last invalidation, read off the log alone.
  function Latest(calls: seq<Call>, key: string): Option<Entry> {
    if calls == [] then None
    else
      var last := calls[|calls| - 1];
      if last.op.InvalidateCall? then None
      else if Written(last).Some? && Written(last).value.key == key then Written(last)
      else Latest(calls[..|calls| - 1], key)
  }

  // Keys set since the last invalidation.
  function LiveKeys(calls: seq<Call>): set<string> {
    if calls == [] then {}
    else
      var last := calls[|calls| - 1];
      if last.op.InvalidateCall? then {}
      else LiveKeys(calls[..|calls| - 1]) + (if Written(last).Some? then {Written(last).value.key} else {})
  }

  ghost predicate InOrder(calls: seq<Call>) {
    forall i, j :: 0 <= i <= j < |calls| ==> calls[i].at <= calls[j].at
  }

  // Every stored entry is the log's latest for its key, and the store fits.
  ghost predicate Refines(config: Config, calls: seq<Call>, store: Store) {
    && DistinctKeys(store)
    && |store| <= config.maxSize
    && forall e :: e in store ==> Latest(calls, e.key) == Some(e)
  }

  // Every entry the log knows of is stored or has outlived the TTL at time `now`.
  ghost predicate Complete(config: Config, calls: seq<Call>, store: Store, now: real) {
    forall key :: Latest(calls, key).Some? ==>
      Latest(calls, key).value in store || now - Latest(calls, key).value.at > config.ttl
  }

  lemma {:induction false} LatestFacts(calls: seq<Call>, key: string)
    ensures Latest(calls, key).Some? ==> Latest(calls, key).value.key == key
    ensures Latest(calls, key).Some? <==> key in LiveKeys(calls)
  {
    if calls != [] {
      LatestFacts(calls[..|calls| - 1], key);
    }
  }

  lemma SetKeepsRefinement(config: Config, before: seq<Call>, call: Call, store: Store)
    requires config.maxSize >= 1 && Refines(config, before, store) && Written(call).Some?
    ensures Refines(config, before + [call], Put(Evicted(config, store), Written(call).value))
  {
    var calls, e := before + [call], Written(call).value;
    var kept := Evicted(config, store);
    assert calls[..|calls| - 1] == before;
    EvictedFacts(config, store);
    PutFacts(kept, e);
    var put := Put(kept, e);
    forall x | x in put
      ensures Latest(calls, x.key) == Some(x)
    {
      if x != e {
        assert x in store && x.key != e.key;
        assert Latest(before, x.key) == Some(x);
      }
    }
  }

  lemma EvictedFacts(config: Config, store: Store)
    requires config.maxSize >= 1 && DistinctKeys(store) && |store| <= config.maxSize
    ensures var kept := Evicted(config, store);
            DistinctKeys(kept) && |kept| < config.maxSize && forall x :: x in kept ==> x in store
  {
    if Evicted(config, store) != store {
      WithoutFacts(store, Oldest(store));
    }
  }

  // An accepted answer is stored in place of the one under its key, and nothing else is lost while
  // there is room; when the store is full, one entry with the least timestamp goes, the first of them.
  lemma SetLosesOnlyTheOldest(config: Config, store: Store, e: Entry)
    requires DistinctKeys(store)
    ensures var after := AfterSet(config, store, e);
            if e.answer.status != "ok" then after == store
            else if |store| < config.maxSize || store == [] then
              forall x :: x in after <==> x == e || (x in store && x.key != e.key)
            else
              exists i: nat :: IsOldest(store, i)
                               && forall x :: x in after <==> x == e || (x in store && x.key != e.key && x != store[i])
  {
    if e.answer.status == "ok" {
      if store != [] && |store| >= config.maxSize {
        WithoutFacts(store, Oldest(store));
        PutFacts(Without(store, Oldest(store)), e);
      } else {
        PutFacts(store, e);
      }
    }
  }

  // An exact lookup returns the answer under the key unless it has outlived its time, and then drops
  // that entry only.
  lemma ExactLookupOf(config: Config, store: Store, key: string, now: real)
    requires DistinctKeys(store)
    ensures var (after, hit) := AfterGet(config, store, key, now);
            && (hit.Some? <==> exists x :: x in store && x.key == key && now - x.at <= config.ttl)
            && (hit.Some? ==> exists x :: x in store && x.key == key && hit.value == x.answer)
            && forall x :: x in after <==> x in store && !(x.key == key && now - x.at > config.ttl)
  {
    var i := IndexOf(store, key);
    assert forall x :: x in store && x.key == key ==> i < |store| && x == store[i];
    if i < |store| {
      assert store[i] in store;
      WithoutFacts(store, i);
    }
  }

  lemma GetKeepsRefinement(config: Config, before: seq<Call>, call: Call, store: Store)
    requires Refines(config, before, store) && call.op.GetCall?
    ensures Refines(config, before + [call], Apply(config, store, call))
  {
    var calls := before + [call];
    assert calls[..|calls| - 1] == before;
    var i := IndexOf(store, KeyText(call.op.query, call.op.topK));
    if i < |store| {
      WithoutFacts(store, i);
    }
  }

  lemma StepKeepsRefinement(config: Config, before: seq<Call>, call: Call, store: Store)
    requires config.maxSize >= 1 && Refines(config, before, store)
    ensures Refines(config, before + [call], Apply(config, store, call))
  {
    var calls := before + [call];
    assert calls[..|calls| - 1] == before;
    match call.op {
      case SetCall(_, _, _, _) =>
        if Written(call).Some? {
          SetKeepsRefinement(config, before, call, store);
        }
      case GetCall(_, _) => GetKeepsRefinement(config, before, call, store);
      case SemanticCall => PurgedFacts(config, store, call.at);
      case InvalidateCall =>
    }
  }

  lemma NothingRefines(config: Config)
    ensures Refines(config, [], [])
  {
  }

  // Over any sequence of calls, the store fits and agrees with the log.
  lemma {:induction false} CacheRefinesLog(config: Config, calls: seq<Call>)
    requires config.maxSize >= 1
    ensures Refines(config, calls, StoreAfter(config, calls))
  {
    hide Refines, Apply;
    if calls == [] {
      NothingRefines(config);
    } else {
      var before, call := calls[..|calls| - 1], calls[|calls| - 1];
      CacheRefinesLog(config, before);
      StepKeepsRefinement(config, before, call, StoreAfter(config, before));
      assert before + [call] == calls;
    }
  }

  /* ---- nothing fresh is missed below capacity ---- */

  lemma {:induction false} DistinctSubsetSize(store: Store, keys: set<string>)
    requires DistinctKeys(store)
    requires forall e :: e in store ==> e.key in keys
    ensures |store| <= |keys|
  {
    if store != [] {
      var last := |store| - 1;
      forall e | e in store[..last]
        ensures e.key in keys - {store[last].key}
      {
        var j :| 0 <= j < last && store[j] == e;
      }
      assert store[last] in store;
      DistinctSubsetSize(store[..last], keys - {store[last].key});
    }
  }

  lemma StoredKeysAreLive(config: Config, calls: seq<Call>, store: Store)
    requires Refines(config, calls, store)
    ensures |store| <= |LiveKeys(calls)|
  {
    forall e | e in store
      ensures e.key in LiveKeys(calls)
    {
      LatestFacts(calls, e.key);
    }
    DistinctSubsetSize(store, LiveKeys(calls));
  }

  lemma SetKeepsComplete(config: Config, before: seq<Call>, call: Call, store: Store, was: real)
    requires Refines(config, before, store) && Complete(config, before, store, was)
    requires Written(call).Some? && was <= call.at && |LiveKeys(before)| < config.maxSize
    ensures Complete(config, before + [call], Put(Evicted(config, store), Written(call).value), call.at)
  {
    var calls, e := before + [call], Written(call).value;
    assert calls[..|calls| - 1] == before;
    StoredKeysAreLive(config, before, store);
    PutFacts(store, e);
    forall key | Latest(calls, key).Some?
      ensures Latest(calls, key).value in Put(store, e) || call.at - Latest(calls, key).value.at > config.ttl
    {
      LatestFacts(before, key);
      if key != e.key {
        assert Latest(calls, key) == Latest(before, key);
      }
    }
  }

  lemma GetKeepsComplete(config: Config, before: seq<Call>, call: Call, store: Store, was: real)
    requires Refines(config, before, store) && Complete(config, before, store, was)
    requires call.op.GetCall? && was <= call.at
    ensures Complete(config, before + [call], Apply(config, store, call), call.at)
  {
    var calls := before + [call];
    assert calls[..|calls| - 1] == before;
    assert forall key :: Latest(calls, key) == Latest(before, key);
    var i := IndexOf(store, KeyText(call.op.query, call.op.topK));
    if i < |store| {
      WithoutFacts(store, i);
    }
  }

  lemma PurgeKeepsComplete(config: Config, before: seq<Call>, call: Call, store: Store, was: real)
    requires Refines(config, before, store) && Complete(config, before, store, was)
    requires call.op.SemanticCall? && was <= call.at
    ensures Complete(config, before + [call], Apply(config, store, call), call.at)
  {
    var calls := before + [call];
    assert calls[..|calls| - 1] == before;
    assert forall key :: Latest(calls, key) == Latest(before, key);
    PurgedFacts(config, store, call.at);
  }

  // While fewer distinct keys are live than the cache can hold, every fresh entry is still stored.
  lemma {:induction false} NothingFreshIsMissed(config: Config, calls: seq<Call>)
    requires config.maxSize >= 1 && calls != [] && InOrder(calls)
    requires |LiveKeys(calls)| < config.maxSize
    ensures Complete(config, calls, StoreAfter(config, calls), calls[|calls| - 1].at)
  {
    hide Complete, LiveKeys, Latest, Refines, Apply, Stale, Written;
    var before, call := calls[..|calls| - 1], calls[|calls| - 1];
    var store := StoreAfter(config, before);
    assert before + [call] == calls;
    CacheRefinesLog(config, before);
    if call.op.InvalidateCall? {
      InvalidatedIsComplete(config, calls, StoreAfter(config, calls));
    } else {
      LiveKeysGrow(before, call);
      var was := if before == [] then call.at else before[|before| - 1].at;
      if before == [] {
        EmptyIsComplete(config, store, was);
      } else {
        NothingFreshIsMissed(config, before);
      }
      StepKeepsComplete(config, before, call, store, was);
    }
  }

  lemma EmptyIsComplete(config: Config, store: Store, now: real)
    ensures Complete(config, [], store, now)
  {
  }

  lemma InvalidatedIsComplete(config: Config, calls: seq<Call>, store: Store)
    requires calls != [] && calls[|calls| - 1].op.InvalidateCall?
    ensures Complete(config, calls, store, calls[|calls| - 1].at)
  {
    hide Stale, Written;
  }

  lemma LiveKeysGrow(before: seq<Call>, call: Call)
    requires !call.op.InvalidateCall?
    ensures |LiveKeys(before)| <= |LiveKeys(before + [call])|
  {
    var calls := before + [call];
    assert calls[..|calls| - 1] == before;
    assert LiveKeys(before) <= LiveKeys(calls);
    SubsetSize(LiveKeys(before), LiveKeys(calls));
  }

  lemma StepKeepsComplete(config: Config, before: seq<Call>, call: Call, store: Store, was: real)
    requires Refines(config, before, store) && Complete(config, before, store, was)
    requires !call.op.InvalidateCall? && was <= call.at && |LiveKeys(before)| < config.maxSize
    ensures Complete(config, before + [call], Apply(config, store, call), call.at)
  {
    match call.op {
      case SetCall(_, _, _, _) =>
        if Written(call).Some? {
          SetKeepsComplete(config, before, call, store, was);
        } else {
          var calls := before + [call];
          assert calls[..|calls| - 1] == before;
          assert forall key :: Latest(calls, key) == Latest(before, key);
        }
      case GetCall(_, _) => GetKeepsComplete(config, before, call, store, was);
      case SemanticCall => PurgeKeepsComplete(config, before, call, store, was);
    }
  }

  /* ---- what a lookup returns ---- */

  // An exact hit is the latest accepted set for the same canonical query and top_k, no older than
  // the TTL.
  lemma ExactHitIsLatest(config: Config, calls: seq<Call>, query: string, topK: int, now: real)
    requires config.maxSize >= 1
    ensures var (_, hit) := AfterGet(config, StoreAfter(config, calls), KeyText(query, topK), now);
            var latest := Latest(calls, KeyText(query, topK));
            hit.Some? ==> latest.Some? && hit.value == latest.value.answer && now - latest.value.at <= config.ttl
  {
    CacheRefinesLog(config, calls);
    var store := StoreAfter(config, calls);
    var i := IndexOf(store, KeyText(query, topK));
    if i < |store| {
      assert store[i] in store;
    }
  }

  // Below capacity the converse holds too: a fresh latest set is always found.
  lemma ExactLookupIsExact(config: Config, calls: seq<Call>, query: string, topK: int, now: real)
    requires config.maxSize >= 1 && calls != [] && InOrder(calls) && calls[|calls| - 1].at <= now
    requires |LiveKeys(calls)| < config.maxSize
    ensures var (_, hit) := AfterGet(config, StoreAfter(config, calls), KeyText(query, topK), now);
            var latest := Latest(calls, KeyText(query, topK));
            hit == if latest.Some? && now - latest.value.at <= config.ttl then Some(latest.value.answer) else None
  {
    var key, store := KeyText(query, topK), StoreAfter(config, calls);
    CacheRefinesLog(config, calls);
    NothingFreshIsMissed(config, calls);
    LatestFacts(calls, key);
    var i := IndexOf(store, key);
    if i < |store| {
      assert store[i] in store;
    }
  }

  // Whatever a semantic lookup may return is the latest set for its own key, asked with the same
  // top_k, and scores inside [-1, 1].
  lemma SemanticHitIsLatest(config: Config, sqrt: real -> real, calls: seq<Call>, probe: Vector, topK: int,
                            threshold: real, now: real, i: nat)
    requires config.maxSize >= 1 && IsSqrt(sqrt)
    requires IsBest(config, sqrt, StoreAfter(config, calls), probe, topK, threshold, now, i)
    ensures var e := StoreAfter(config, calls)[i];
            && Latest(calls, e.key) == Some(e)
            && now - e.at <= config.ttl
            && e.answer.topK == Some(topK)
            && threshold <= Score(sqrt, e, probe) <= 1.0
  {
    var e := StoreAfter(config, calls)[i];
    CacheRefinesLog(config, calls);
    assert e in StoreAfter(config, calls);
    LatestIsTagged(calls, e.key);
    CosineRange(sqrt, probe, e.vector.value);
  }

  lemma {:induction false} LatestIsTagged(calls: seq<Call>, key: string)
    ensures Latest(calls, key).Some? ==> Latest(calls, key).value.answer.topK.Some?
  {
    if calls != [] {
      LatestIsTagged(calls[..|calls| - 1], key);
    }
  }

  // The best candidate is unique, so the lookup is a function of the store.
  lemma BestIsUnique(config: Config, sqrt: real -> real, store: Store, probe: Vector, topK: int,
                     threshold: real, now: real, i: nat, j: nat)
    requires IsBest(config, sqrt, store, probe, topK, threshold, now, i)
    requires IsBest(config, sqrt, store, probe, topK, threshold, now, j)
    ensures i == j
  {
    assert Score(sqrt, store[i], probe) <= Score(sqrt, store[j], probe) <= Score(sqrt, store[i], probe);
  }

  // Above -1 the threshold alone decides who qualifies; at -1 or below, entries scoring exactly -1
  // are the ones lost.
  lemma ThresholdDecides(config: Config, sqrt: real -> real, e: Entry, probe: Vector, topK: int,
                         threshold: real, now: real)
    requires IsSqrt(sqrt) && e.vector.Some? && !Stale(config, e, now) && e.answer.topK == Some(topK)
    ensures Candidate(config, sqrt, e, probe, topK, threshold, now) <==>
            Score(sqrt, e, probe) >= threshold && (threshold > -1.0 || Score(sqrt, e, probe) != -1.0)
  {
    CosineRange(sqrt, probe, e.vector.value);
  }

  // Asking again with a stored non-zero embedding always hits, at any threshold up to 1.
  lemma StoredEmbeddingIsFound(config: Config, sqrt: real -> real, store: Store, i: nat, topK: int,
                               threshold: real, now: real)
    requires IsSqrt(sqrt) && i < |store| && threshold <= 1.0
    requires store[i].vector.Some? && NonZero(store[i].vector.value)
    requires !Stale(config, store[i], now) && store[i].answer.topK == Some(topK)
    ensures Candidate(config, sqrt, store[i], store[i].vector.value, topK, threshold, now)
  {
    CosineWithItself(sqrt, store[i].vector.value);
  }
}
