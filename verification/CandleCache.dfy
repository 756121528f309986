/** The capped cache of closed candles, one list for each symbol and timeframe (packages/core/src/providers.ts). */
module CandleCache {
  import opened Common
  import opened Ordering
  import opened Candles

  const CAP: nat := 1200

  function CacheKey(symbol: string, timeframe: Timeframe): string {
    ToUpper(symbol) + "|" + TimeframeText(timeframe)
  }

  predicate OpensNoLater(a: Candle, b: Candle) {
    a.openTime <= b.openTime
  }

  function OpensElsewhere(c: Candle): Candle -> bool {
    (entry: Candle) => entry.openTime != c.openTime
  }

  /** The last `n` elements; all of them if there are fewer. */
  function LastN<T>(s: seq<T>, n: nat): seq<T> {
    if |s| <= n then s else s[|s| - n..]
  }

  function Upserted(existing: seq<Candle>, c: Candle): seq<Candle> {
    LastN(StableSort(Filter(existing, OpensElsewhere(c)) + [c], OpensNoLater), CAP)
  }

  function Lookup(cache: map<string, seq<Candle>>, key: string): seq<Candle> {
    if key in cache then cache[key] else []
  }

  function WithCandle(cache: map<string, seq<Candle>>, key: string, c: Candle): map<string, seq<Candle>> {
    cache[key := Upserted(Lookup(cache, key), c)]
  }

  class BinanceSpotProvider {
    var candleCache: map<string, seq<Candle>>

    constructor ()
      ensures candleCache == map[]
    {
      candleCache := map[];
    }

    method UpsertClosedCandle(symbol: string, timeframe: Timeframe, candle: Candle)
      modifies this
      ensures candleCache == WithCandle(old(candleCache), CacheKey(symbol, timeframe), candle)
    {
      var key := CacheKey(symbol, timeframe);
      var existing := Lookup(candleCache, key);
      var withoutSameOpenTime := Filter(existing, OpensElsewhere(candle));
      withoutSameOpenTime := withoutSameOpenTime + [candle];
      withoutSameOpenTime := StableSort(withoutSameOpenTime, OpensNoLater);
      candleCache := candleCache[key := LastN(withoutSameOpenTime, CAP)];
    }

    /** What a request is answered with when no refresh over REST is due. */
    method CachedCandles(symbol: string, timeframe: Timeframe, limit: int) returns (candles: seq<Candle>)
      ensures candles == (
        var all := Lookup(candleCache, CacheKey(symbol, timeframe)); if limit <= 0 then all else LastN(all, limit))
    {
      var finalCandles := Lookup(candleCache, CacheKey(symbol, timeframe));
      candles := if limit <= 0 then finalCandles else LastN(finalCandles, limit);
    }
  }

  // ---- The map the cache stands for -----------------------------------------------------------------------------

  ghost predicate Distinct(s: seq<Candle>) {
    forall i, j | 0 <= i < j < |s| :: s[i].openTime != s[j].openTime
  }

  ghost predicate Ascending(s: seq<Candle>) {
    forall i, j | 0 <= i < j < |s| :: s[i].openTime < s[j].openTime
  }

  ghost predicate Caches(s: seq<Candle>, t: int) {
    exists i :: 0 <= i < |s| && s[i].openTime == t
  }

  /**
   Every entry is the candle last written for its time, and a written time is missing only if at least `n` entries
   are cached and all of them are newer.
   */
  ghost predicate Covers(s: seq<Candle>, written: map<int, Candle>, n: nat) {
    && Distinct(s)
    && (forall i | 0 <= i < |s| :: s[i].openTime in written && written[s[i].openTime] == s[i])
    && (forall t | t in written && !Caches(s, t) :: |s| >= n && forall i | 0 <= i < |s| :: t < s[i].openTime)
  }

  /** The newest `n` candles of the map, oldest first. */
  ghost predicate Newest(s: seq<Candle>, written: map<int, Candle>, n: nat) {
    Covers(s, written, n) && Ascending(s) && |s| <= n
  }

  // ---- Sorting distinct times -----------------------------------------------------------------------------------

  lemma {:induction false} DistinctOccursOnce(s: seq<Candle>, x: Candle)
    requires Distinct(s)
    ensures multiset(s)[x] <= 1
  {
    if s != [] {
      DistinctOccursOnce(s[1..], x);
      assert s == [s[0]] + s[1..];
      if x == s[0] {
        assert x !in s[1..];
      }
    }
  }

  lemma {:induction false} DistinctPermutes(s: seq<Candle>, r: seq<Candle>)
    requires Distinct(s) && multiset(s) == multiset(r)
    ensures Distinct(r)
  {
    SameMembers(s, r);
    forall x
      ensures multiset(r)[x] <= 1
    {
      DistinctOccursOnce(s, x);
    }
    forall i, j | 0 <= i < j < |r|
      ensures r[i].openTime != r[j].openTime
    {
      BagDistinct(r, i, j);
      assert r[i] in s && r[j] in s;
    }
  }

  lemma {:induction false} SortAscends(s: seq<Candle>)
    requires Distinct(s)
    ensures Ascending(StableSort(s, OpensNoLater))
  {
    var r := StableSort(s, OpensNoLater);
    SortSorts(s, OpensNoLater);
    DistinctPermutes(s, r);
    forall i, j | 0 <= i < j < |r|
      ensures r[i].openTime < r[j].openTime
    {
      assert OpensNoLater(r[i], r[j]);
    }
  }

  lemma {:induction false} FilterKeepsDistinct(s: seq<Candle>, p: Candle -> bool)
    requires Distinct(s)
    ensures Distinct(Filter(s, p))
  {
    if s != [] {
      FilterKeepsDistinct(s[1..], p);
      var rest := Filter(s[1..], p);
      forall j | 0 <= j < |rest|
        ensures rest[j].openTime != s[0].openTime
      {
        assert rest[j] in s[1..];
      }
    }
  }

  lemma CachesIffMember(s: seq<Candle>, t: int)
    ensures Caches(s, t) <==> exists c :: c in s && c.openTime == t
  {
    if Caches(s, t) {
      var i :| 0 <= i < |s| && s[i].openTime == t;
      assert s[i] in s;
    }
  }

  // ---- One upsert -----------------------------------------------------------------------------------------------

  /** Replacing or adding a candle keeps up with the map; nothing is cut off yet. */
  lemma {:induction false} ReplaceCovers(s: seq<Candle>, written: map<int, Candle>, n: nat, c: Candle)
    requires Covers(s, written, n)
    ensures var r := Filter(s, OpensElsewhere(c)) + [c];
      && Distinct(r)
      && (forall e | e in r :: e.openTime in written[c.openTime := c] && written[c.openTime := c][e.openTime] == e)
      && (forall e | e in s && e.openTime != c.openTime :: e in r)
  {
    FilterKeepsDistinct(s, OpensElsewhere(c));
    var rest := Filter(s, OpensElsewhere(c));
    forall i | 0 <= i < |rest|
      ensures rest[i].openTime != c.openTime
    {
      assert rest[i] in rest;
    }
  }

  lemma LateIsCached(s: seq<Candle>, from: nat, k: nat)
    requires from <= |s| && k < |s|
    ensures k >= from ==> Caches(s[from..], s[k].openTime)
  {
    if k >= from {
      assert s[from..][k - from] == s[k];
    }
  }

  /** What a cut leaves out of an ascending list is older than what it keeps. */
  lemma {:induction false} CutOffIsOlder(s: seq<Candle>, m: nat, t: int)
    requires Ascending(s) && Caches(s, t) && !Caches(LastN(s, m), t)
    ensures |LastN(s, m)| == m && forall i | 0 <= i < m :: t < LastN(s, m)[i].openTime
  {
    var from := |s| - |LastN(s, m)|;
    var k :| 0 <= k < |s| && s[k].openTime == t;
    LateIsCached(s, from, k);
  }

  /** The last `m` of the newest `n` candles are the newest `m`. */
  lemma {:induction false} CutIsNewest(s: seq<Candle>, written: map<int, Candle>, n: nat, m: nat)
    requires Newest(s, written, n) && m <= n
    ensures Newest(LastN(s, m), written, m)
  {
    var r := LastN(s, m);
    forall t | t in written && !Caches(r, t)
      ensures |r| >= m && forall i | 0 <= i < |r| :: t < r[i].openTime
    {
      if Caches(s, t) {
        CutOffIsOlder(s, m, t);
      }
    }
  }

  lemma FilterLosesAtMost(s: seq<Candle>, c: Candle)
    requires Distinct(s)
    ensures |Filter(s, OpensElsewhere(c))| >= |s| - if Caches(s, c.openTime) then 1 else 0
  {
    if s != [] {
      FilterLosesAtMost(s[1..], c);
      if Caches(s[1..], c.openTime) {
        var i :| 0 <= i < |s[1..]| && s[1..][i].openTime == c.openTime;
        assert s[i + 1].openTime == c.openTime;
      }
    }
  }

  /** A written time that is not in the list before the cut is older than all of it, except perhaps the new candle. */
  lemma {:induction false} MissingIsOld(s: seq<Candle>, written: map<int, Candle>, c: Candle, t: int)
    requires Covers(s, written, CAP) && t in written && t != c.openTime
    requires forall e | e in Filter(s, OpensElsewhere(c)) :: e.openTime != t
    ensures forall e | e in Filter(s, OpensElsewhere(c)) :: t < e.openTime
    ensures |Filter(s, OpensElsewhere(c))| + 1 >= CAP
    ensures c.openTime < t ==> |Filter(s, OpensElsewhere(c))| >= CAP
  {
    assert forall i | 0 <= i < |s| && s[i].openTime == t :: s[i] in s;
    FilterLosesAtMost(s, c);
  }

  /** The list before the cut may hold one candle older than a missing time; the cut drops it. */
  lemma {:induction false} CutDropsOld(sorted: seq<Candle>, c: Candle, t: int)
    requires Ascending(sorted) && !Caches(sorted, t) && |sorted| >= CAP
    requires forall e | e in sorted :: e == c || t < e.openTime
    requires c.openTime < t ==> |sorted| > CAP
    ensures forall i | 0 <= i < CAP :: t < LastN(sorted, CAP)[i].openTime
  {
    var from := |sorted| - CAP;
    forall i | 0 <= i < CAP
      ensures t < LastN(sorted, CAP)[i].openTime
    {
      assert sorted[from + i] in sorted && sorted[0] in sorted;
      if c.openTime < t {
        assert sorted[0].openTime < sorted[from + i].openTime;
      }
    }
  }

  lemma {:induction false} UpsertedIsCut(s: seq<Candle>, written: map<int, Candle>, c: Candle) returns (sorted: seq<Candle>)
    requires Covers(s, written, CAP)
    ensures Upserted(s, c) == LastN(sorted, CAP) && |sorted| == |Filter(s, OpensElsewhere(c))| + 1
    ensures Ascending(sorted) && c in sorted
    ensures forall e | e in sorted :: e == c || e in Filter(s, OpensElsewhere(c))
    ensures forall e | e in Filter(s, OpensElsewhere(c)) :: e in sorted
  {
    var kept := Filter(s, OpensElsewhere(c));
    sorted := StableSort(kept + [c], OpensNoLater);
    ReplaceCovers(s, written, CAP, c);
    SortAscends(kept + [c]);
    SameMembers(kept + [c], sorted);
  }

  /** Nothing written is lost but what is older than a full cache. */
  lemma {:induction false} UpsertLosesOnlyOld(s: seq<Candle>, written: map<int, Candle>, c: Candle, t: int)
    requires Covers(s, written, CAP) && t in written[c.openTime := c] && !Caches(Upserted(s, c), t)
    ensures |Upserted(s, c)| == CAP && forall i | 0 <= i < CAP :: t < Upserted(s, c)[i].openTime
  {
    var sorted := UpsertedIsCut(s, written, c);
    CachesIffMember(sorted, t);
    if Caches(sorted, t) {
      CutOffIsOlder(sorted, CAP, t);
    } else {
      MissingIsOld(s, written, c, t);
      CutDropsOld(sorted, c, t);
    }
  }

  /** An upsert of the cache is a write to the map: the cache goes on holding its newest entries. */
  lemma {:induction false} UpsertTracks(s: seq<Candle>, written: map<int, Candle>, c: Candle)
    requires Covers(s, written, CAP)
    ensures Newest(Upserted(s, c), written[c.openTime := c], CAP)
  {
    var r, after := Upserted(s, c), written[c.openTime := c];
    var sorted := UpsertedIsCut(s, written, c);
    forall i | 0 <= i < |r|
      ensures r[i].openTime in after && after[r[i].openTime] == r[i]
    {
      assert r[i] in sorted;
      ReplaceCovers(s, written, CAP, c);
    }
    forall t | t in after && !Caches(r, t)
      ensures |r| >= CAP && forall i | 0 <= i < |r| :: t < r[i].openTime
    {
      UpsertLosesOnlyOld(s, written, c, t);
    }
  }

  // ---- Every sequence of upserts --------------------------------------------------------------------------------

  /** A closed candle and the cache key of its symbol and timeframe. */
  datatype Closed = Closed(key: string, candle: Candle)

  function AfterAll(cache: map<string, seq<Candle>>, events: seq<Closed>): map<string, seq<Candle>>
    decreases |events|
  {
    if events == [] then cache
    else AfterAll(WithCandle(cache, events[0].key, events[0].candle), events[1..])
  }

  /** The plain map a key's candles are written to, without a cap. */
  function Written(written: map<int, Candle>, key: string, events: seq<Closed>): map<int, Candle>
    decreases |events|
  {
    if events == [] then written
    else if events[0].key == key then
      Written(written[events[0].candle.openTime := events[0].candle], key, events[1..])
    else Written(written, key, events[1..])
  }

  predicate Mentions(events: seq<Closed>, key: string) {
    exists i :: 0 <= i < |events| && events[i].key == key
  }

  lemma {:induction false} OneCandleTracks(cache: map<string, seq<Candle>>, written: map<int, Candle>, key: string, e: Closed)
    requires Covers(Lookup(cache, key), written, CAP)
    ensures e.key == key ==>
              Newest(Lookup(WithCandle(cache, e.key, e.candle), key), written[e.candle.openTime := e.candle], CAP)
    ensures e.key != key ==> Lookup(WithCandle(cache, e.key, e.candle), key) == Lookup(cache, key)
  {
    if e.key == key {
      UpsertTracks(Lookup(cache, key), written, e.candle);
    }
  }

  /**
   Whatever candles close in whatever order: a key's cache is the newest 1200 entries of the plain map of its candles,
   and a key no event mentions keeps its list.
   */
  lemma {:induction false} CacheIsNewestOfMap(
    cache: map<string, seq<Candle>>, written: map<int, Candle>, key: string, events: seq<Closed>)
    requires Covers(Lookup(cache, key), written, 1200)
    ensures Covers(Lookup(AfterAll(cache, events), key), Written(written, key, events), 1200)
    ensures Mentions(events, key) ==> Newest(Lookup(AfterAll(cache, events), key), Written(written, key, events), 1200)
    ensures !Mentions(events, key) ==> Lookup(AfterAll(cache, events), key) == Lookup(cache, key)
    decreases |events|
  {
    if events != [] {
      var e, rest := events[0], events[1..];
      var next := WithCandle(cache, e.key, e.candle);
      OneCandleTracks(cache, written, key, e);
      var after := if e.key == key then written[e.candle.openTime := e.candle] else written;
      CacheIsNewestOfMap(next, after, key, rest);
      assert Mentions(events, key) <==> e.key == key || Mentions(rest, key) by {
        assert forall i | 0 <= i < |rest| :: rest[i] == events[i + 1];
      }
      if e.key == key && !Mentions(rest, key) {
        assert Written(after, key, rest) == after by { WrittenIgnoresOthers(after, key, rest); }
      }
    }
  }

  lemma {:induction false} WrittenIgnoresOthers(written: map<int, Candle>, key: string, events: seq<Closed>)
    requires !Mentions(events, key)
    ensures Written(written, key, events) == written
    decreases |events|
  {
    if events != [] {
      assert forall i | 0 <= i < |events| - 1 :: events[1..][i] == events[i + 1];
      WrittenIgnoresOthers(written, key, events[1..]);
    }
  }

  // ---- The newest entries are determined by the map -------------------------------------------------------------

  function NewerThan(written: map<int, Candle>, t: int): set<int> {
    set u | u in written && u > t
  }

  function TimesFrom(s: seq<Candle>, i: nat): set<int>
    requires i <= |s|
  {
    set k | i <= k < |s| :: s[k].openTime
  }

  lemma {:induction false} TimesAreCounted(s: seq<Candle>, i: nat)
    requires Ascending(s) && i <= |s|
    ensures |TimesFrom(s, i)| == |s| - i
    decreases |s| - i
  {
    if i < |s| {
      TimesAreCounted(s, i + 1);
      assert TimesFrom(s, i) == {s[i].openTime} + TimesFrom(s, i + 1);
      assert s[i].openTime !in TimesFrom(s, i + 1);
    }
  }

  lemma SubsetIsNoLarger<T>(a: set<T>, b: set<T>)
    requires a <= b
    ensures |a| <= |b|
  {
    assert b == a + (b - a);
  }

  /** A candle is cached iff it was written and fewer than `n` written candles are newer. */
  lemma {:induction false} CachedIff(s: seq<Candle>, written: map<int, Candle>, n: nat, t: int)
    requires Newest(s, written, n) && n > 0
    ensures Caches(s, t) <==> t in written && |NewerThan(written, t)| < n
  {
    if Caches(s, t) {
      var i :| 0 <= i < |s| && s[i].openTime == t;
      TimesAreCounted(s, i + 1);
      forall u | u in NewerThan(written, t)
        ensures u in TimesFrom(s, i + 1)
      {
        NewerIsCached(s, written, n, i, u);
      }
      SubsetIsNoLarger(NewerThan(written, t), TimesFrom(s, i + 1));
    } else if t in written {
      TimesAreCounted(s, 0);
      assert TimesFrom(s, 0) <= NewerThan(written, t);
      SubsetIsNoLarger(TimesFrom(s, 0), NewerThan(written, t));
    }
  }

  lemma {:induction false} NewerIsCached(s: seq<Candle>, written: map<int, Candle>, n: nat, i: nat, u: int)
    requires Newest(s, written, n) && i < |s| && u in written && u > s[i].openTime
    ensures u in TimesFrom(s, i + 1)
  {
    assert Caches(s, u);
    var k :| 0 <= k < |s| && s[k].openTime == u;
    assert k > i;
  }

  // ---- Keys of different symbols or timeframes never meet --------------------------------------------------------

  lemma JoinedIdentifies(a: string, tf: Timeframe, b: string, tf': Timeframe)
    requires a + "|" + TimeframeText(tf) == b + "|" + TimeframeText(tf')
    ensures a == b && tf == tf'
  {
    var key := a + "|" + TimeframeText(tf);
    var n := |key|;
    assert key[n - 2] == TimeframeText(tf)[|TimeframeText(tf)| - 2] == TimeframeText(tf')[|TimeframeText(tf')| - 2];
    assert key[n - 1] == TimeframeText(tf)[|TimeframeText(tf)| - 1] == TimeframeText(tf')[|TimeframeText(tf')| - 1];
    assert key[n - 3] == if tf.M15? then '1' else '|';
    assert key[n - 3] == if tf'.M15? then '1' else '|';
    assert key[..|a|] == a && key[..|b|] == b;
  }

  lemma CacheKeyIdentifies(s: string, tf: Timeframe, s': string, tf': Timeframe)
    requires CacheKey(s, tf) == CacheKey(s', tf')
    ensures ToUpper(s) == ToUpper(s') && tf == tf'
  {
    JoinedIdentifies(ToUpper(s), tf, ToUpper(s'), tf');
  }
}
