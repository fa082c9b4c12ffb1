/** Historical candles: validation of a series, and the paging fetch with cache and gap repair. The
    service is modelled for one symbol, timeframe and number of days, which is one cache file. */
module HistoricalData {
  import opened Wrappers
  import opened Candles

  const DAY_MS := 86_400_000

  datatype Report = Report(bars: nat, duplicates: nat, missing: nat, unconfirmed: nat, valid: bool, status: string)

  predicate ValidBar(c: Candle) {
    && c.open > 0.0 && c.high > 0.0 && c.low > 0.0 && c.close > 0.0 && c.volume >= 0.0
    && c.low <= c.open <= c.high && c.low <= c.close <= c.high
  }

  lemma BarMeans(c: Candle)
    ensures ValidBar(c) <==> 0.0 < c.low <= c.open <= c.high && c.low <= c.close <= c.high && 0.0 <= c.volume
  {
  }

  /** A series without a flaw: not empty, confirmed, valid bars exactly one step apart. */
  ghost predicate ValidHistory(s: seq<Candle>, step: int) {
    && s != []
    && (forall i :: 0 <= i < |s| ==> s[i].confirmed && ValidBar(s[i]))
    && OneStepApart(s, step)
  }

  lemma {:induction false} StepsAscend(s: seq<Candle>, step: int, i: nat, j: nat)
    requires step > 0 && OneStepApart(s, step) && i < j < |s|
    ensures s[i].timestamp < s[j].timestamp
    decreases j
  {
    assert StepAt(s, j - 1, step);
    if i < j - 1 {
      StepsAscend(s, step, i, j - 1);
    }
  }

  lemma StepsAreAscending(s: seq<Candle>, step: int)
    requires step > 0 && OneStepApart(s, step)
    ensures Ascending(s)
  {
    forall i, j | 0 <= i < j < |s| ensures s[i].timestamp < s[j].timestamp {
      StepsAscend(s, step, i, j);
    }
  }

  /** `validate_history`: its counters find exactly the flawless series. */
  method ValidateHistory(s: seq<Candle>, step: int) returns (r: Report)
    requires step > 0
    ensures r.valid <==> ValidHistory(s, step)
    ensures r.bars == |s|
    ensures r.missing == 0 <==> OneStepApart(s, step)
    ensures r.duplicates == 0 <==> Distinct(s)
    ensures r.unconfirmed == 0 <==> forall i :: 0 <= i < |s| ==> s[i].confirmed
    ensures r.status == if r.valid then "PASS" else if r.missing > 0 || r.duplicates > 0 then "DATA_GAP" else "DATA_INVALID"
  {
    DistinctCount(s);
    var duplicates := |s| - |Stamps(s)|;
    var missing: nat := 0;
    for i := 0 to |s| - 1 + if s == [] then 1 else 0
      invariant missing == 0 <==> forall j: nat :: j < i ==> StepAt(s, j, step)
    {
      var gap := s[i + 1].timestamp - s[i].timestamp;
      assert StepAt(s, i, step) <==> gap == step;
      if gap != step {
        var bars := gap / step - 1;
        missing := missing + if bars > 1 then bars else 1;
      }
    }
    var unconfirmed: nat := 0;
    for i := 0 to |s|
      invariant unconfirmed == 0 <==> forall j :: 0 <= j < i ==> s[j].confirmed
    {
      unconfirmed := unconfirmed + if s[i].confirmed then 0 else 1;
    }
    var barsValid := forall i | 0 <= i < |s| :: ValidBar(s[i]);
    var ordered := InOrder(s);
    if missing == 0 {
      StepsAreAscending(s, step);
    }
    var valid := s != [] && duplicates == 0 && missing == 0 && unconfirmed == 0 && ordered && barsValid;
    r := Report(|s|, duplicates, missing, unconfirmed, valid,
                if valid then "PASS" else if missing > 0 || duplicates > 0 then "DATA_GAP" else "DATA_INVALID");
  }

  // ----- the backend -----

  datatype Reply = Failed(rateLimited: bool) | Malformed | Page(candles: seq<Candle>)

  /** The backend returns whatever it likes, but never a bar from before the epoch. */
  class Backend {
    ghost var delivered: set<Candle>

    constructor ()
      ensures delivered == {}
    {
      delivered := {};
    }

    method GetCandles(limit: nat, after: Option<int>) returns (reply: Reply)
      modifies this
      ensures old(delivered) <= delivered
      ensures reply.Page? ==> forall c :: c in reply.candles ==> c.timestamp >= 0 && c in delivered
      ensures !reply.Page? ==> delivered == old(delivered)
    {
      reply := *;
      if reply.Page? {
        if exists c | c in reply.candles :: c.timestamp < 0 {
          reply := Malformed;
        } else {
          delivered := delivered + set c | c in reply.candles;
        }
      }
    }
  }

  // ----- collecting -----

  predicate Keyed(m: map<int, Candle>) {
    forall t :: t in m ==> m[t].timestamp == t
  }

  /** The candles of a map in the order of time. */
  method SortedValues(m: map<int, Candle>) returns (s: seq<Candle>)
    requires Keyed(m)
    ensures Ascending(s) && |s| == |m|
    ensures forall i :: 0 <= i < |s| ==> s[i].timestamp in m && m[s[i].timestamp] == s[i]
  {
    s := [];
    var rest := m;
    while rest != map[]
      invariant Keyed(rest) && |s| + |rest| == |m|
      invariant forall t :: t in rest ==> t in m && rest[t] == m[t]
      invariant Ascending(s)
      invariant forall i, t :: 0 <= i < |s| && t in rest ==> s[i].timestamp < t
      invariant forall i :: 0 <= i < |s| ==> s[i].timestamp in m && m[s[i].timestamp] == s[i]
      decreases |rest|
    {
      var t := Earliest(rest);
      s := s + [rest[t]];
      assert (rest - {t}).Keys == rest.Keys - {t};
      assert |rest| == |rest.Keys| && |rest - {t}| == |(rest - {t}).Keys|;
      rest := rest - {t};
    }
  }

  method Earliest(m: map<int, Candle>) returns (t: int)
    requires m != map[]
    ensures t in m && forall u :: u in m ==> t <= u
  {
    assert m.Keys != {};
    HasMember(m.Keys);
    t :| t in m.Keys;
    var rest := m.Keys - {t};
    while rest != {}
      invariant rest <= m.Keys && t in m
      invariant forall u :: u in m ==> u in rest || t <= u
      decreases |rest|
    {
      HasMember(rest);
      var u :| u in rest;
      rest := rest - {u};
      if u < t {
        t := u;
      }
    }
  }

  /** s[-n:], which for n = 0 is all of s. */
  function LastBars(s: seq<Candle>, n: nat): (r: seq<Candle>)
    ensures |r| == if n == 0 || n > |s| then |s| else n
    ensures forall c :: c in r ==> c in s
  {
    if n == 0 || n > |s| then s else s[|s| - n..]
  }

  lemma SuffixKeeps(s: seq<Candle>, from: nat, step: int)
    requires ValidHistory(s, step) && from < |s|
    ensures ValidHistory(s[from..], step)
  {
    hide ValidBar;
    var r := s[from..];
    forall i | 0 <= i < |r| ensures r[i].confirmed && ValidBar(r[i]) {
      assert r[i] == s[from + i];
    }
    forall i: nat | i + 1 < |r| ensures StepAt(r, i, step) {
      assert StepAt(s, from + i, step);
    }
  }

  lemma LastBarsKeep(s: seq<Candle>, n: nat, step: int)
    requires ValidHistory(s, step)
    ensures ValidHistory(LastBars(s, n), step)
  {
    hide ValidHistory;
    NotEmpty(s, step);
    if 0 < n <= |s| {
      SuffixKeeps(s, |s| - n, step);
    }
  }

  lemma NotEmpty(s: seq<Candle>, step: int)
    requires ValidHistory(s, step)
    ensures s != []
  {
  }

  lemma {:induction false} SortedStays(s: seq<Candle>)
    requires Ascending(s)
    ensures SortByTime(s) == s
  {
    if s != [] {
      SortedStays(s[1..]);
    }
  }

  /** The confirmed bars of a page replace what was collected under the same timestamp. */
  method Collect(collected: map<int, Candle>, page: seq<Candle>) returns (m: map<int, Candle>)
    requires Keyed(collected)
    ensures Keyed(m) && |m| >= |collected|
    ensures forall t :: t in m ==> (m[t] in page && m[t].confirmed) || (t in collected && m[t] == collected[t])
    ensures forall t :: t in collected ==> t in m
  {
    m := collected;
    for i := 0 to |page|
      invariant Keyed(m) && |m| >= |collected|
      invariant forall t :: t in m ==> (m[t] in page && m[t].confirmed) || (t in collected && m[t] == collected[t])
      invariant forall t :: t in collected ==> t in m
    {
      if page[i].confirmed {
        PutGrows(m, page[i]);
        m := m[page[i].timestamp := page[i]];
      }
    }
  }

  lemma PutGrows(m: map<int, Candle>, c: Candle)
    ensures |m[c.timestamp := c]| >= |m|
  {
    assert m[c.timestamp := c].Keys == m.Keys + {c.timestamp};
    assert |m| == |m.Keys| && |m[c.timestamp := c]| == |m[c.timestamp := c].Keys|;
    if c.timestamp in m {
      assert m.Keys + {c.timestamp} == m.Keys;
    }
  }

  // ----- fetch -----

  datatype FetchResult = Fetched(candles: seq<Candle>) | FetchFailed(reason: string)

  /** The bars of `days` days of a step. */
  function TargetCount(days: nat, step: int): nat
    requires step > 0
  {
    days * DAY_MS / step
  }

  class HistoricalDataService {
    const backend: Backend
    const pageSize: nat
    var cache: Option<seq<Candle>>

    constructor (b: Backend, size: int)
      ensures backend == b && cache.None? && 1 <= pageSize <= 100
    {
      backend := b;
      pageSize := if size < 1 then 1 else if size > 100 then 100 else size;
      cache := None;
    }

    /** Every bar came from the backend or was in the cache at the start. */
    ghost predicate Known(m: map<int, Candle>, cached: seq<Candle>)
      reads backend
    {
      forall t :: t in m ==> m[t] in backend.delivered || m[t] in cached
    }

    /** One page, asked for up to five times while the backend says to wait. */
    method GetPage(after: Option<int>) returns (reply: Reply)
      modifies backend
      ensures old(backend.delivered) <= backend.delivered
      ensures reply.Page? ==> forall c :: c in reply.candles ==> c.timestamp >= 0 && c in backend.delivered
    {
      reply := Failed(false);
      for attempt := 0 to 5
        invariant old(backend.delivered) <= backend.delivered
        invariant !reply.Page?
      {
        reply := backend.GetCandles(pageSize, after);
        if !(reply.Failed? && reply.rateLimited) {
          return;
        }
      }
    }

    method Save(collected: map<int, Candle>)
      requires Keyed(collected)
      modifies this`cache
      ensures cache.Some?
      ensures forall c :: c in cache.value ==> c.timestamp in collected && collected[c.timestamp] == c
    {
      var ordered := SortedValues(collected);
      cache := Some(ordered);
    }

    /** The paging loop. It ends because the oldest timestamp falls with every page. */
    method CollectPages(start: map<int, Candle>, ghost cached: seq<Candle>, target: nat, useCache: bool)
      returns (collected: map<int, Candle>, failure: Option<string>)
      requires Keyed(start) && Known(start, cached)
      modifies this`cache, backend
      ensures old(backend.delivered) <= backend.delivered
      ensures Keyed(collected) && Known(collected, cached)
      ensures !useCache ==> cache == old(cache)
    {
      collected, failure := start, None;
      var previousOldest: Option<int> := None;
      if collected != map[] {
        var earliest := Earliest(collected);
        previousOldest := Some(earliest);
      }
      var page := 0;
      while |collected| < target + 2
        invariant Keyed(collected) && Known(collected, cached)
        invariant old(backend.delivered) <= backend.delivered
        invariant !useCache ==> cache == old(cache)
        decreases if previousOldest.None? then 1 else 0,
                  if previousOldest.Some? && previousOldest.value > 0 then previousOldest.value else 0
      {
        var reply := GetPage(previousOldest);
        match reply {
          case Failed(_) =>
            if useCache && collected != map[] {
              Save(collected);
            }
            failure := Some("DATA_UNAVAILABLE:PAGINATION");
            return;
          case Malformed =>
            failure := Some("DATA_INVALID:malformed candle");
            return;
          case Page(candles) =>
            if candles == [] {
              return;
            }
            collected := Collect(collected, candles);
            var oldest := Oldest(candles);
            if previousOldest.Some? && oldest >= previousOldest.value {
              return;
            }
            previousOldest := Some(oldest);
            page := page + 1;
            if useCache && page % 10 == 0 {
              Save(collected);
            }
        }
      }
    }

    /** Ask again around every gap. A reply that fails is passed over. */
    method Repair(start: map<int, Candle>, gaps: seq<int>, ghost cached: seq<Candle>, step: int)
      returns (collected: map<int, Candle>)
      requires Keyed(start) && Known(start, cached)
      modifies backend
      ensures old(backend.delivered) <= backend.delivered
      ensures Keyed(collected) && Known(collected, cached) && |collected| >= |start|
    {
      collected := start;
      for i := 0 to |gaps|
        invariant Keyed(collected) && Known(collected, cached) && |collected| >= |start|
        invariant old(backend.delivered) <= backend.delivered
      {
        var reply := backend.GetCandles(if pageSize < 20 then pageSize else 20, Some(gaps[i] + step));
        if reply.Page? {
          collected := Collect(collected, reply.candles);
        }
      }
    }

    /** `fetch`: what it returns is a flawless series of known bars, and it has exactly the target
        number of bars unless that number is zero. A flawless cache of at least the target number is
        answered without asking the backend. */
    method Fetch(days: nat, step: int, useCache: bool) returns (r: FetchResult)
      requires step > 0
      modifies this`cache, backend
      ensures r.Fetched? ==>
        && days in {7, 30, 90}
        && ValidHistory(r.candles, step)
        && (|r.candles| == TargetCount(days, step) <==> TargetCount(days, step) >= 1)
        && (forall c :: c in r.candles ==>
              c in backend.delivered || (useCache && old(cache).Some? && c in old(cache).value))
      ensures days in {7, 30, 90} && useCache && old(cache).Some? && ValidHistory(old(cache).value, step) &&
              |old(cache).value| >= TargetCount(days, step) ==>
        && r == Fetched(LastBars(old(cache).value, TargetCount(days, step)))
        && cache == old(cache) && backend.delivered == old(backend.delivered)
      ensures r.Fetched? && useCache ==>
        cache == Some(r.candles) || (cache == old(cache) && backend.delivered == old(backend.delivered))
      ensures !useCache ==> cache == old(cache)
    {
      hide ValidHistory, OneStepApart;
      if days !in {7, 30, 90} {
        return FetchFailed("HISTORICAL_DAYS_MUST_BE_7_30_OR_90");
      }
      var target := TargetCount(days, step);
      var cached := if useCache && cache.Some? then cache.value else [];
      ServedFromCache(cached, target, step);
      if cached != [] && |cached| >= target {
        var selected := LastBars(SortByTime(cached), target);
        SortOrders(cached);
        SortMembers(cached);
        var report := ValidateHistory(selected, step);
        if report.valid {
          NotEmpty(selected, step);
          return Fetched(selected);
        }
      }
      r := FetchFresh(target, step, useCache, cached);
    }

    /** The rest of `fetch`: page, order, cut, validate, repair once, validate again. */
    method FetchFresh(target: nat, step: int, useCache: bool, cached: seq<Candle>) returns (r: FetchResult)
      requires step > 0
      modifies this`cache, backend
      ensures r.Fetched? ==>
        && ValidHistory(r.candles, step)
        && (|r.candles| == target <==> target >= 1)
        && (forall c :: c in r.candles ==> c in backend.delivered || c in cached)
      ensures r.Fetched? && useCache ==> cache == Some(r.candles)
      ensures !useCache ==> cache == old(cache)
    {
      hide ValidHistory, OneStepApart, LastBars, Distinct;
      var start := Index(cached);
      var collected, failure := CollectPages(start, cached, target, useCache);
      if failure.Some? {
        return FetchFailed(failure.value);
      }
      var ordered := SortedValues(collected);
      if |ordered| < target {
        return FetchFailed("DATA_UNAVAILABLE");
      }
      var selected := LastBars(ordered, target);
      var report := ValidateHistory(selected, step);
      if report.missing > 0 {
        var gaps := GapsOf(selected, step);
        if |gaps| <= 20 {
          collected := Repair(collected, gaps, cached, step);
          ordered := SortedValues(collected);
          selected := LastBars(ordered, target);
          report := ValidateHistory(selected, step);
        }
      }
      if !report.valid {
        return FetchFailed(report.status);
      }
      NotEmpty(selected, step);
      if useCache {
        cache := Some(selected);
      }
      r := Fetched(selected);
    }
  }

  lemma {:induction false} SortMembers(s: seq<Candle>)
    ensures forall c :: c in SortByTime(s) ==> c in s
  {
    if s != [] {
      SortMembers(s[1..]);
      InsertMembers(s[0], SortByTime(s[1..]));
    }
  }

  lemma {:induction false} InsertMembers(c: Candle, s: seq<Candle>)
    ensures forall d :: d in InsertByTime(c, s) ==> d == c || d in s
  {
    if s != [] && c.timestamp > s[0].timestamp {
      InsertMembers(c, s[1..]);
    }
  }

  /** A flawless cache is served as it is. */
  lemma ServedFromCache(cached: seq<Candle>, target: nat, step: int)
    requires step > 0
    ensures ValidHistory(cached, step) ==>
      cached != [] && SortByTime(cached) == cached && ValidHistory(LastBars(cached, target), step)
  {
    hide ValidBar, SortByTime, LastBars;
    if ValidHistory(cached, step) {
      StepsAreAscending(cached, step);
      SortedStays(cached);
      LastBarsKeep(cached, target, step);
    }
  }

  /** The cached candles by timestamp, the last of each. */
  method Index(cached: seq<Candle>) returns (m: map<int, Candle>)
    ensures Keyed(m) && forall t :: t in m ==> m[t] in cached
  {
    m := map[];
    for i := 0 to |cached|
      invariant Keyed(m) && forall t :: t in m ==> m[t] in cached
    {
      m := m[cached[i].timestamp := cached[i]];
    }
  }

  method Oldest(page: seq<Candle>) returns (t: int)
    requires page != []
    ensures exists c :: c in page && c.timestamp == t
    ensures forall c :: c in page ==> t <= c.timestamp
  {
    t := page[0].timestamp;
    for i := 1 to |page|
      invariant exists j :: 0 <= j < i && page[j].timestamp == t
      invariant forall j :: 0 <= j < i ==> t <= page[j].timestamp
    {
      if page[i].timestamp < t {
        t := page[i].timestamp;
      }
    }
  }

  /** The right ends of the gaps of a series. */
  function GapsOf(s: seq<Candle>, step: int): seq<int> {
    if |s| < 2 then []
    else (if s[1].timestamp - s[0].timestamp != step then [s[1].timestamp] else []) + GapsOf(s[1..], step)
  }

  /** They are exactly the bars that do not follow the one before by one step. */
  lemma {:induction false} GapsMean(s: seq<Candle>, step: int)
    ensures forall t :: t in GapsOf(s, step) <==>
      exists i :: 0 < i < |s| && s[i].timestamp == t && s[i].timestamp != s[i - 1].timestamp + step
    decreases |s|
  {
    if |s| >= 2 {
      GapsMean(s[1..], step);
      forall t
        ensures t in GapsOf(s, step) <==>
          exists i :: 0 < i < |s| && s[i].timestamp == t && s[i].timestamp != s[i - 1].timestamp + step
      {
        if t in GapsOf(s[1..], step) {
          var i :| 0 < i < |s[1..]| && s[1..][i].timestamp == t && s[1..][i].timestamp != s[1..][i - 1].timestamp + step;
          assert s[i + 1] == s[1..][i] && s[i] == s[1..][i - 1];
        }
        if i :| 1 < i < |s| && s[i].timestamp == t && s[i].timestamp != s[i - 1].timestamp + step {
          assert s[i] == s[1..][i - 1] && s[i - 1] == s[1..][i - 2];
        }
      }
    }
  }

  /** Two flawless bars eight days apart. */
  function TwoBars(): seq<Candle> {
    [Candle(0, 1.0, 1.0, 1.0, 1.0, 1.0, 1.0, true), Candle(8 * DAY_MS, 1.0, 1.0, 1.0, 1.0, 1.0, 1.0, true)]
  }

  lemma TwoBarsAreFlawless()
    ensures ValidHistory(TwoBars(), 8 * DAY_MS) && TargetCount(7, 8 * DAY_MS) == 0
  {
    assert StepAt(TwoBars(), 0, 8 * DAY_MS);
  }

  /** Seven days of an eight day step are no bars at all, and the whole cache is returned for them. */
  method EverythingForNothing() returns (r: FetchResult)
    ensures TargetCount(7, 8 * DAY_MS) == 0 && r == Fetched(TwoBars()) && |TwoBars()| == 2
  {
    hide ValidHistory;
    TwoBarsAreFlawless();
    var backend := new Backend();
    var service := new HistoricalDataService(backend, 100);
    service.cache := Some(TwoBars());
    r := service.Fetch(7, 8 * DAY_MS, true);
  }
}
