/** The rolling candle buffer of one timeframe: bootstrap, merge of live updates, eviction. */
module CandleBuffers {
  import opened Wrappers
  import opened Candles

  datatype BufferLimits = BufferLimits(interval: int, capacity: nat, minimum: nat)

  predicate ValidLimits(l: BufferLimits) {
    l.interval > 0 && 1 <= l.minimum <= l.capacity
  }

  datatype Buffer = Buffer(candles: map<int, Candle>, emitted: set<int>, complete: bool, missing: int)

  const EMPTY_BUFFER := Buffer(map[], {}, false, 0)

  datatype Update = Update(accepted: bool, event: bool, duplicate: bool, outOfOrder: bool, missing: int)

  const REFUSED_UPDATE := Update(false, false, false, false, 0)

  // ----- the extremes of a set of timestamps -----

  lemma RemoveLeaves(s: set<int>, x: int)
    requires x in s && s != {x}
    ensures s - {x} != {} && s == s - {x} + {x}
  {
    assert s - {x} == {} ==> s == {x};
    assert s == s - {x} + {x};
  }

  ghost function MaxOf(s: set<int>): (m: int)
    requires s != {}
    ensures m in s && forall u :: u in s ==> u <= m
    decreases |s|
  {
    HasMember(s);
    var x :| x in s;
    if s == {x} then x
    else
      RemoveLeaves(s, x);
      var y := MaxOf(s - {x});
      if x > y then x else y
  }

  ghost function MinOf(s: set<int>): (m: int)
    requires s != {}
    ensures m in s && forall u :: u in s ==> m <= u
    decreases |s|
  {
    HasMember(s);
    var x :| x in s;
    if s == {x} then x
    else
      RemoveLeaves(s, x);
      var y := MinOf(s - {x});
      if x < y then x else y
  }

  method FindMax(s: set<int>) returns (m: int)
    requires s != {}
    ensures m == MaxOf(s)
  {
    HasMember(s);
    m :| m in s;
    var rest := s - {m};
    while rest != {}
      invariant rest <= s && m in s
      invariant forall u :: u in s ==> u in rest || u <= m
      decreases |rest|
    {
      HasMember(rest);
      var u :| u in rest;
      rest := rest - {u};
      if u > m {
        m := u;
      }
    }
  }

  method FindMin(s: set<int>) returns (m: int)
    requires s != {}
    ensures m == MinOf(s)
  {
    HasMember(s);
    m :| m in s;
    var rest := s - {m};
    while rest != {}
      invariant rest <= s && m in s
      invariant forall u :: u in s ==> u in rest || m <= u
      decreases |rest|
    {
      HasMember(rest);
      var u :| u in rest;
      rest := rest - {u};
      if u < m {
        m := u;
      }
    }
  }

  // ----- one update -----

  predicate IsValid(c: Candle, interval: int)
    requires interval > 0
  {
    && c.timestamp > 0 && OnGrid(c.timestamp, interval)
    && c.open > 0.0 && c.high > 0.0 && c.low > 0.0 && c.close > 0.0 && c.volume >= 0.0
    && c.low <= c.open <= c.high && c.low <= c.close <= c.high
  }

  /** A valid bar: its prices are positive and ordered, its volume is not negative, and it starts on the grid. */
  lemma ValidMeans(c: Candle, interval: int)
    requires interval > 0
    ensures IsValid(c, interval) <==>
      && 0 < c.timestamp && c.timestamp % interval == 0 && 0.0 <= c.volume
      && 0.0 < c.low <= c.open <= c.high && c.low <= c.close <= c.high
  {
  }

  /** The number of bars missing between the newest bar and a later one. */
  function Gap(newest: int, t: int, interval: int): int
    requires interval > 0
  {
    if t > newest + interval then (t - newest) / interval - 1 else 0
  }

  /** Drop the oldest bars until at most `capacity` are left. */
  ghost function Evict(candles: map<int, Candle>, capacity: nat): map<int, Candle>
    requires capacity > 0
    decreases |candles|
  {
    if |candles| <= capacity then candles else Evict(candles - {MinOf(candles.Keys)}, capacity)
  }

  /** `apply` as a function: the buffer after one update and what it reported. */
  ghost function Applied(b: Buffer, l: BufferLimits, c: Candle): (Buffer, Update)
    requires ValidLimits(l)
  {
    var t := c.timestamp;
    var event := c.confirmed && t !in b.emitted;
    var emitted := if event then b.emitted + {t} else b.emitted;
    if !IsValid(c, l.interval) then (b, REFUSED_UPDATE)
    else if t in b.candles then
      if b.candles[t] == c then (b, REFUSED_UPDATE.(duplicate := true))
      else if b.candles[t].confirmed then (b, REFUSED_UPDATE.(outOfOrder := true))
      else (b.(candles := b.candles[t := c], emitted := emitted), Update(true, event, false, false, 0))
    else if b.candles != map[] && t < MaxOf(b.candles.Keys) then (b, REFUSED_UPDATE.(outOfOrder := true))
    else
      var jump := b.candles != map[] && t > MaxOf(b.candles.Keys) + l.interval;
      var gap := if jump then Gap(MaxOf(b.candles.Keys), t, l.interval) else 0;
      (Buffer(Evict(b.candles[t := c], l.capacity), emitted, b.complete && !jump, b.missing + gap),
       Update(true, event, false, false, gap))
  }

  ghost function LastConfirmedOf(b: Buffer): Option<int> {
    var confirmed := set u | u in b.candles && b.candles[u].confirmed;
    if confirmed == {} then None else Some(MaxOf(confirmed))
  }

  // ----- bootstrap -----

  datatype BootstrapResult = DataInvalid(reason: string) | Ready(buffer: Buffer)

  function Least(a: nat, b: nat): nat {
    if a <= b then a else b
  }

  /** `bootstrap` as a function of the limits and the history. */
  function Bootstrapped(l: BufferLimits, history: seq<Candle>): BootstrapResult
    requires ValidLimits(l)
  {
    var ordered := SortByTime(history);
    if ordered == [] then DataInvalid("empty bootstrap")
    else if |ordered| != |Stamps(ordered)| then DataInvalid("duplicate bootstrap")
    else if exists i :: 0 <= i < |ordered| && !OnGrid(ordered[i].timestamp, l.interval) then DataInvalid("unaligned candle")
    else if CountConfirmed(ordered) < l.minimum then DataInvalid("minimum candles")
    else if GapSum(ordered, l.interval) != 0 then DataInvalid("missing intervals")
    else
      SortOrders(history);
      StrictWhenDistinct(ordered);
      Ready(Buffer(ByTime(ordered[|ordered| - Least(|ordered|, l.capacity)..]), ConfirmedStamps(ordered), true, 0))
  }

  class CandleBuffer {
    const limits: BufferLimits
    var candles: map<int, Candle>
    var emitted: set<int>
    var complete: bool
    var missing: int

    ghost function View(): Buffer
      reads this
    {
      Buffer(candles, emitted, complete, missing)
    }

    constructor (l: BufferLimits)
      requires ValidLimits(l)
      ensures limits == l && View() == EMPTY_BUFFER
    {
      limits := l;
      candles, emitted, complete, missing := map[], {}, false, 0;
    }

    /** `bootstrap`: a history that is refused leaves the buffer as it was. */
    method Bootstrap(history: seq<Candle>) returns (error: Option<string>)
      requires ValidLimits(limits)
      modifies this
      ensures match Bootstrapped(limits, history)
              case Ready(b) => error.None? && View() == b
              case DataInvalid(reason) => error == Some(reason) && View() == old(View())
    {
      hide SortByTime, GapSum, ByTime, CountConfirmed, ConfirmedStamps, InOrder, Stamps, OnGrid;
      var ordered := SortByTime(history);
      if ordered == [] {
        return Some("empty bootstrap");
      }
      var stamps := Stamps(ordered);
      if |ordered| != |stamps| {
        return Some("duplicate bootstrap");
      }
      if exists i | 0 <= i < |ordered| :: !OnGrid(ordered[i].timestamp, limits.interval) {
        return Some("unaligned candle");
      }
      var confirmed := CountConfirmed(ordered);
      if confirmed < limits.minimum {
        return Some("minimum candles");
      }
      var gaps := GapSum(ordered, limits.interval);
      if gaps != 0 {
        return Some("missing intervals");
      }
      SortOrders(history);
      StrictWhenDistinct(ordered);
      candles := ByTime(ordered[|ordered| - Least(|ordered|, limits.capacity)..]);
      emitted := ConfirmedStamps(ordered);
      missing := 0;
      complete := true;
      error := None;
    }

    /** Merge one live update. */
    method Apply(c: Candle) returns (u: Update)
      requires ValidLimits(limits)
      modifies this
      ensures (View(), u) == Applied(old(View()), limits, c)
    {
      hide MaxOf, MinOf, Evict, IsValid;
      var t := c.timestamp;
      if !IsValid(c, limits.interval) {
        return REFUSED_UPDATE;
      }
      if t in candles {
        if candles[t] == c {
          return REFUSED_UPDATE.(duplicate := true);
        }
        if candles[t].confirmed {
          return REFUSED_UPDATE.(outOfOrder := true);
        }
        candles := candles[t := c];
        var again := Emit(c);
        return Update(true, again, false, false, 0);
      }
      var gap := 0;
      if candles != map[] {
        var newest := FindMax(candles.Keys);
        if t < newest {
          return REFUSED_UPDATE.(outOfOrder := true);
        }
        if t > newest + limits.interval {
          gap := (t - newest) / limits.interval - 1;
          missing := missing + gap;
          complete := false;
        }
      }
      candles := candles[t := c];
      EvictOldest();
      var event := Emit(c);
      u := Update(true, event, false, false, gap);
    }

    method EvictOldest()
      requires ValidLimits(limits)
      modifies this`candles
      ensures candles == Evict(old(candles), limits.capacity)
    {
      while |candles| > limits.capacity
        invariant Evict(candles, limits.capacity) == Evict(old(candles), limits.capacity)
        decreases |candles|
      {
        var oldest := FindMin(candles.Keys);
        candles := candles - {oldest};
      }
    }

    /** `last_confirmed`, by its timestamp. */
    method LastConfirmed() returns (t: Option<int>)
      ensures t == LastConfirmedOf(View())
    {
      var confirmed := set u | u in candles && candles[u].confirmed;
      if confirmed == {} {
        return None;
      }
      var newest := FindMax(confirmed);
      t := Some(newest);
    }

    /** The timestamp of the last bar of the snapshot. */
    method NewestBar() returns (t: int)
      requires candles != map[]
      ensures t == MaxOf(candles.Keys)
    {
      t := FindMax(candles.Keys);
    }

    /** A confirmed bar is announced the first time it is seen confirmed. */
    method Emit(c: Candle) returns (event: bool)
      modifies this`emitted
      ensures event == (c.confirmed && c.timestamp !in old(emitted))
      ensures emitted == if event then old(emitted) + {c.timestamp} else old(emitted)
    {
      event := c.confirmed && c.timestamp !in emitted;
      if event {
        emitted := emitted + {c.timestamp};
      }
    }
  }

  // ----- what a buffer always is -----

  /** Between any two bars of the buffer no grid point is missing. */
  ghost predicate GapFree(candles: map<int, Candle>, interval: int)
    requires interval > 0
  {
    forall a, t, b :: a in candles && b in candles && a <= t <= b && OnGrid(t, interval) ==> t in candles
  }

  /** Of the bars accepted so far the buffer holds the newest, and never more than its capacity. */
  ghost predicate HoldsNewest(candles: map<int, Candle>, l: BufferLimits, seen: set<int>)
    requires ValidLimits(l)
  {
    && (seen == {} <==> candles == map[])
    && (forall t :: t in candles ==> t in seen && candles[t].timestamp == t)
    && (forall t :: t in seen ==> OnGrid(t, l.interval))
    && (forall t, u :: t in seen && t !in candles && u in candles ==> t < u)
    && |candles| <= l.capacity
  }

  /** Every grid point from `first` to the newest bar was either accepted or counted as missing. */
  ghost predicate AllCounted(b: Buffer, l: BufferLimits, first: int, seen: set<int>) {
    && b.missing >= 0
    && (b.candles == map[] ==> b.missing == 0)
    && (b.candles != map[] ==> MaxOf(b.candles.Keys) - first == (|seen| - 1 + b.missing) * l.interval)
  }

  ghost predicate CompleteRun(b: Buffer, l: BufferLimits)
    requires ValidLimits(l)
  {
    b.complete ==> b.missing == 0 && l.minimum <= |b.candles| && GapFree(b.candles, l.interval)
  }

  /** What always holds of a buffer; `seen` are the bars accepted since the last bootstrap and
      `first` is the earliest of them. */
  ghost predicate BufferInv(b: Buffer, l: BufferLimits, first: int, seen: set<int>) {
    && ValidLimits(l)
    && HoldsNewest(b.candles, l, seen)
    && AllCounted(b, l, first, seen)
    && CompleteRun(b, l)
  }

  ghost function SeenAfter(b: Buffer, l: BufferLimits, seen: set<int>, c: Candle): set<int>
    requires ValidLimits(l)
  {
    if Applied(b, l, c).1.accepted then seen + {c.timestamp} else seen
  }

  ghost function FirstAfter(first: int, seen: set<int>, c: Candle): int {
    if seen == {} then c.timestamp else first
  }

  /** A bar that is confirmed never changes, and a bar that was evicted never returns. */
  ghost predicate Settled(b: Buffer, b': Buffer, seen: set<int>) {
    && (forall t :: t in b.candles && t in b'.candles && b.candles[t].confirmed ==> b'.candles[t] == b.candles[t])
    && (forall t :: t in seen && t !in b.candles ==> t !in b'.candles)
    && b.emitted <= b'.emitted
  }

  /** `after` is what `candles` is from `cut` on. */
  ghost predicate CutAt(candles: map<int, Candle>, after: map<int, Candle>, cut: int) {
    && (forall u :: u in after <==> u in candles && cut <= u)
    && (forall u :: u in after ==> after[u] == candles[u])
  }

  /** Evicting after one new bar removes at most the oldest. */
  lemma EvictOne(candles: map<int, Candle>, capacity: nat) returns (cut: int)
    requires capacity > 0 && candles != map[] && |candles| <= capacity + 1
    ensures CutAt(candles, Evict(candles, capacity), cut)
    ensures cut <= MaxOf(candles.Keys)
    ensures |Evict(candles, capacity)| == if |candles| <= capacity then |candles| else capacity
  {
    hide MaxOf, MinOf;
    var keys := candles.Keys;
    assert |candles| == |keys|;
    var oldest := MinOf(keys);
    if |candles| <= capacity {
      return oldest;
    }
    cut := oldest + 1;
    var rest := candles - {oldest};
    assert rest.Keys == keys - {oldest};
    assert |rest| == |rest.Keys|;
    assert MaxOf(keys) == oldest ==> keys == {oldest};
  }

  lemma GrownByOne(candles: map<int, Candle>, c: Candle)
    requires c.timestamp !in candles
    ensures |candles[c.timestamp := c]| == |candles| + 1
  {
    assert candles[c.timestamp := c].Keys == candles.Keys + {c.timestamp};
  }

  lemma AppendHolds(candles: map<int, Candle>, l: BufferLimits, seen: set<int>, c: Candle) returns (cut: int)
    requires ValidLimits(l) && HoldsNewest(candles, l, seen) && OnGrid(c.timestamp, l.interval)
    requires c.timestamp !in candles && forall t :: t in candles ==> t < c.timestamp
    ensures var after := Evict(candles[c.timestamp := c], l.capacity);
            && HoldsNewest(after, l, seen + {c.timestamp})
            && c.timestamp !in seen && c.timestamp in after
            && CutAt(candles[c.timestamp := c], after, cut)
            && |candles| <= |after|
  {
    hide MaxOf, MinOf, Evict, OnGrid;
    GrownByOne(candles, c);
    var grown := candles[c.timestamp := c];
    cut := EvictOne(grown, l.capacity);
    assert MaxOf(grown.Keys) == c.timestamp;
    SeenIsOlder(candles, l, seen, c.timestamp);
  }

  /** Everything seen is older than a bar that is newer than everything held. */
  lemma SeenIsOlder(candles: map<int, Candle>, l: BufferLimits, seen: set<int>, t: int)
    requires ValidLimits(l) && HoldsNewest(candles, l, seen)
    requires forall u :: u in candles ==> u < t
    ensures forall u :: u in seen ==> u < t
  {
    if candles != map[] {
      assert candles.Keys != {};
      HasMember(candles.Keys);
      var k :| k in candles.Keys;
    }
  }

  lemma AppendCounts(newest: int, first: int, count: int, missing: int, t: int, interval: int)
    requires interval > 0 && newest < t && OnGrid(newest, interval) && OnGrid(t, interval)
    requires newest - first == (count - 1 + missing) * interval
    ensures var gap := Gap(newest, t, interval);
            gap >= 0 && t - first == (count + missing + gap) * interval
  {
    hide OnGrid;
    GridDistance(newest, t, interval);
    var k := (t - newest) / interval;
    assert t - first == (count - 1 + missing) * interval + k * interval == (count - 1 + missing + k) * interval;
  }

  predicate IsNewer(c: Candle, b: Buffer) {
    c.timestamp !in b.candles && forall t :: t in b.candles ==> t < c.timestamp
  }

  /** What `Applied` does with a new bar at the end. */
  lemma AppliedAppend(b: Buffer, l: BufferLimits, c: Candle)
    requires ValidLimits(l) && IsValid(c, l.interval) && IsNewer(c, b)
    ensures var (b', u) := Applied(b, l, c);
            && u.accepted && b'.candles == Evict(b.candles[c.timestamp := c], l.capacity) && b.emitted <= b'.emitted
            && (b.candles == map[] ==> b'.missing == b.missing && (b'.complete ==> b.complete))
            && (b.candles != map[] ==>
                  && b'.missing == b.missing + Gap(MaxOf(b.candles.Keys), c.timestamp, l.interval)
                  && (b'.complete ==> b.complete && c.timestamp <= MaxOf(b.candles.Keys) + l.interval))
  {
    hide MaxOf, MinOf, Evict;
    if b.candles != map[] {
      assert MaxOf(b.candles.Keys) in b.candles.Keys;
    }
  }

  /** The accepted new bar `c` at the end of the buffer. */
  lemma AppendKeeps(b: Buffer, l: BufferLimits, first: int, seen: set<int>, c: Candle)
    requires BufferInv(b, l, first, seen) && IsValid(c, l.interval) && IsNewer(c, b)
    ensures var (b', u) := Applied(b, l, c);
            && u.accepted
            && BufferInv(b', l, FirstAfter(first, seen, c), seen + {c.timestamp})
            && Settled(b, b', seen)
  {
    hide MaxOf, MinOf, Evict, HoldsNewest, OnGrid, CompleteRun, Applied, AllCounted;
    var t, b' := c.timestamp, Applied(b, l, c).0;
    AppliedAppend(b, l, c);
    assert OnGrid(t, l.interval);
    var cut := AppendHolds(b.candles, l, seen, c);
    HeldFacts(b.candles, l, seen);
    if b.candles == map[] {
      FreshRuns(b, b', l, first, seen, c);
    } else {
      var newest := MaxOf(b.candles.Keys);
      assert newest in b.candles.Keys;
      GridDistance(newest, t, l.interval);
      AppendAllCounted(b, b', l, first, seen, t);
      AppendRuns(b, b', l, newest, t, cut);
    }
  }

  lemma AppendAllCounted(b: Buffer, b': Buffer, l: BufferLimits, first: int, seen: set<int>, t: int)
    requires ValidLimits(l) && AllCounted(b, l, first, seen) && b.candles != map[]
    requires t > MaxOf(b.candles.Keys) && OnGrid(MaxOf(b.candles.Keys), l.interval) && OnGrid(t, l.interval)
    requires b'.missing == b.missing + Gap(MaxOf(b.candles.Keys), t, l.interval)
    requires t !in seen && t in b'.candles && forall u :: u in b'.candles ==> u <= t
    ensures AllCounted(b', l, first, seen + {t})
  {
    hide MaxOf, OnGrid;
    AppendCounts(MaxOf(b.candles.Keys), first, |seen|, b.missing, t, l.interval);
    assert t in b'.candles.Keys;
    assert MaxOf(b'.candles.Keys) == t;
  }

  /** An empty buffer is not complete, and its first bar is the first one counted. */
  lemma FreshRuns(b: Buffer, b': Buffer, l: BufferLimits, first: int, seen: set<int>, c: Candle)
    requires BufferInv(b, l, first, seen) && b.candles == map[]
    requires (b'.complete ==> b.complete) && b'.missing == b.missing
    requires c.timestamp in b'.candles && forall t :: t in b'.candles ==> t == c.timestamp
    ensures CompleteRun(b', l) && AllCounted(b', l, FirstAfter(first, seen, c), seen + {c.timestamp})
  {
    hide MaxOf;
    assert MaxOf(b'.candles.Keys) in b'.candles.Keys;
    assert seen + {c.timestamp} == {c.timestamp};
  }

  /** A complete buffer that grows by the next grid point stays gap-free. */
  lemma AppendRuns(b: Buffer, b': Buffer, l: BufferLimits, newest: int, t: int, cut: int)
    requires ValidLimits(l) && CompleteRun(b, l) && newest in b.candles && forall u :: u in b.candles ==> u <= newest
    requires b'.complete ==> b.complete && t == newest + l.interval && b'.missing == b.missing
    requires forall u :: u in b.candles ==> OnGrid(u, l.interval)
    requires |b.candles| <= |b'.candles|
    requires forall u :: u in b'.candles <==> (u in b.candles || u == t) && cut <= u
    ensures CompleteRun(b', l)
  {
    if b'.complete {
      forall x, u, y | x in b'.candles && y in b'.candles && x <= u <= y && OnGrid(u, l.interval) ensures u in b'.candles {
        if u > newest {
          GridDistance(newest, u, l.interval);
        }
      }
    }
  }

  lemma HeldFacts(candles: map<int, Candle>, l: BufferLimits, seen: set<int>)
    requires ValidLimits(l) && HoldsNewest(candles, l, seen)
    ensures seen == {} <==> candles == map[]
    ensures forall t :: t in candles ==> t in seen && OnGrid(t, l.interval)
  {
  }

  /** An open bar is replaced where it stands. */
  lemma RewriteKeeps(b: Buffer, b': Buffer, l: BufferLimits, first: int, seen: set<int>, c: Candle)
    requires BufferInv(b, l, first, seen) && c.timestamp in b.candles && !b.candles[c.timestamp].confirmed
    requires b'.candles == b.candles[c.timestamp := c] && b'.complete == b.complete && b'.missing == b.missing
    requires b.emitted <= b'.emitted
    ensures BufferInv(b', l, first, seen) && Settled(b, b', seen) && seen + {c.timestamp} == seen
  {
    hide MaxOf;
    assert b'.candles.Keys == b.candles.Keys;
    assert |b'.candles| == |b'.candles.Keys| && |b.candles| == |b.candles.Keys|;
  }

  /** Any update keeps what a buffer always is, settles what is confirmed or evicted, and announces
      a bar only when it had not been announced. */
  lemma ApplyKeeps(b: Buffer, l: BufferLimits, first: int, seen: set<int>, c: Candle)
    requires BufferInv(b, l, first, seen)
    ensures var (b', u) := Applied(b, l, c);
            && BufferInv(b', l, FirstAfter(first, seen, c), SeenAfter(b, l, seen, c))
            && Settled(b, b', seen)
            && (u.event ==> u.accepted && c.confirmed && c.timestamp !in b.emitted && c.timestamp in b'.emitted)
  {
    hide MaxOf, MinOf, Evict, IsValid, HoldsNewest, AllCounted, CompleteRun;
    var (b', u) := Applied(b, l, c);
    HeldFacts(b.candles, l, seen);
    if u.accepted {
      if c.timestamp in b.candles {
        RewriteKeeps(b, b', l, first, seen, c);
      } else {
        if b.candles != map[] {
          assert MaxOf(b.candles.Keys) in b.candles.Keys;
          assert forall t :: t in b.candles.Keys ==> t < c.timestamp;
        }
        AppendKeeps(b, l, first, seen, c);
      }
    } else if seen == {} {
      NothingCounted(b, l, first, seen, c.timestamp);
    }
  }

  /** A buffer that stops being complete reports the gap. */
  lemma GapIsReported(b: Buffer, l: BufferLimits, first: int, seen: set<int>, c: Candle)
    requires BufferInv(b, l, first, seen)
    ensures var (b', u) := Applied(b, l, c);
            && u.missing >= 0
            && (b'.complete ==> b.complete)
            && (b.complete && !b'.complete ==> u.missing > 0)
  {
    hide MaxOf, MinOf, Evict, AllCounted, CompleteRun;
    if Applied(b, l, c).1.accepted && c.timestamp !in b.candles && b.candles != map[] {
      var newest := MaxOf(b.candles.Keys);
      assert newest in b.candles.Keys;
      GridDistance(newest, c.timestamp, l.interval);
      GapAtLeastOne(newest, c.timestamp, l.interval);
    }
  }

  lemma GapAtLeastOne(newest: int, t: int, interval: int)
    requires interval > 0 && newest < t
    requires (t - newest) / interval >= 1 && t - newest == (t - newest) / interval * interval
    ensures t > newest + interval ==> Gap(newest, t, interval) > 0
  {
  }

  lemma NothingCounted(b: Buffer, l: BufferLimits, first: int, seen: set<int>, other: int)
    requires BufferInv(b, l, first, seen) && seen == {}
    ensures BufferInv(b, l, other, seen)
  {
  }

  // ----- any number of updates -----

  /** The buffer after a sequence of updates, and the timestamps it announced. */
  ghost function Replay(b: Buffer, l: BufferLimits, updates: seq<Candle>): (Buffer, seq<int>)
    requires ValidLimits(l)
    decreases |updates|
  {
    if updates == [] then (b, [])
    else
      var (before, events) := Replay(b, l, updates[..|updates| - 1]);
      var c := updates[|updates| - 1];
      var (after, u) := Applied(before, l, c);
      (after, if u.event then events + [c.timestamp] else events)
  }

  ghost function SeenAll(b: Buffer, l: BufferLimits, seen: set<int>, updates: seq<Candle>): set<int>
    requires ValidLimits(l)
    decreases |updates|
  {
    if updates == [] then seen
    else
      var before := updates[..|updates| - 1];
      SeenAfter(Replay(b, l, before).0, l, SeenAll(b, l, seen, before), updates[|updates| - 1])
  }

  lemma SettledTransitive(b: Buffer, b1: Buffer, b2: Buffer, seen: set<int>, seen1: set<int>)
    requires Settled(b, b1, seen) && Settled(b1, b2, seen1) && seen <= seen1
    requires forall t :: t in b.candles ==> t in seen
    ensures Settled(b, b2, seen)
  {
  }

  /** Over any updates since a bootstrap: the buffer stays what a buffer is, counts every grid point
      from the first bar, never changes a confirmed bar, never takes an evicted bar back, and
      announces every bar at most once. */
  lemma {:induction false} ReplayKeeps(b: Buffer, l: BufferLimits, first: int, seen: set<int>, updates: seq<Candle>)
    requires ValidLimits(l) && BufferInv(b, l, first, seen) && seen != {}
    ensures var (b', events) := Replay(b, l, updates);
            && BufferInv(b', l, first, SeenAll(b, l, seen, updates))
            && seen <= SeenAll(b, l, seen, updates)
            && Settled(b, b', seen)
            && (forall i, j :: 0 <= i < j < |events| ==> events[i] != events[j])
            && (forall e :: e in events ==> e !in b.emitted && e in b'.emitted)
    decreases |updates|
  {
    hide Applied, BufferInv;
    if updates != [] {
      var prefix, c := updates[..|updates| - 1], updates[|updates| - 1];
      ReplayKeeps(b, l, first, seen, prefix);
      var m := Replay(b, l, prefix).0;
      ApplyKeeps(m, l, first, SeenAll(b, l, seen, prefix), c);
      SeenHolds(b, l, first, seen);
      SettledTransitive(b, m, Applied(m, l, c).0, seen, SeenAll(b, l, seen, prefix));
    }
  }

  lemma SeenHolds(b: Buffer, l: BufferLimits, first: int, seen: set<int>)
    requires BufferInv(b, l, first, seen)
    ensures forall t :: t in b.candles ==> t in seen
  {
  }

  /** A complete buffer is exactly the grid points between its oldest and its newest bar. */
  lemma CompleteIsGrid(b: Buffer, l: BufferLimits, first: int, seen: set<int>, t: int)
    requires BufferInv(b, l, first, seen) && b.complete
    ensures l.minimum <= |b.candles| <= l.capacity && b.candles.Keys != {}
    ensures t in b.candles <==> OnGrid(t, l.interval) && MinOf(b.candles.Keys) <= t <= MaxOf(b.candles.Keys)
  {
    hide MaxOf, MinOf;
    assert |b.candles| == |b.candles.Keys|;
    assert MinOf(b.candles.Keys) in b.candles && MaxOf(b.candles.Keys) in b.candles;
  }

  // ----- what a bootstrap accepts and leaves -----

  /** A history that a bootstrap accepts, in any order: distinct bars on the grid with no gap between
      any two, enough of them confirmed. */
  ghost predicate Acceptable(l: BufferLimits, history: seq<Candle>)
    requires ValidLimits(l)
  {
    && Distinct(history)
    && (forall t :: t in Stamps(history) ==> OnGrid(t, l.interval))
    && (forall a, t, b :: a in Stamps(history) && b in Stamps(history) && a <= t <= b && OnGrid(t, l.interval) ==>
          t in Stamps(history))
    && l.minimum <= CountConfirmed(history)
  }

  lemma GridShift(t: int, k: int, interval: int)
    requires interval > 0 && OnGrid(t, interval)
    ensures OnGrid(t + k * interval, interval)
  {
    var q := t / interval;
    assert t + k * interval == (q + k) * interval;
    QuotientOfMultiple(t + k * interval, q + k, interval);
  }

  /** Neighbours one interval apart: the bars are an arithmetic progression. */
  lemma {:induction false} Progression(s: seq<Candle>, interval: int, i: nat)
    requires interval > 0 && i < |s|
    requires OneStepApart(s, interval)
    ensures s[i].timestamp == s[0].timestamp + i * interval
  {
    if i > 0 {
      Progression(s, interval, i - 1);
      assert StepAt(s, i - 1, interval);
      assert i * interval == (i - 1) * interval + interval;
    }
  }

  /** The gap count of an ordered history is zero exactly when no grid point between two bars is
      missing. */
  lemma NoGapMeansFull(s: seq<Candle>, interval: int)
    requires interval > 0 && Ascending(s) && forall i :: 0 <= i < |s| ==> OnGrid(s[i].timestamp, interval)
    ensures GapSum(s, interval) == 0 <==>
      forall a, t, b :: a in Stamps(s) && b in Stamps(s) && a <= t <= b && OnGrid(t, interval) ==> t in Stamps(s)
  {
    NoGapSteps(s, interval);
    if OneStepApart(s, interval) {
      hide OnGrid, GapSum, OneStepApart;
      forall a, t, b | a in Stamps(s) && b in Stamps(s) && a <= t <= b && OnGrid(t, interval) ensures t in Stamps(s) {
        FullBetween(s, interval, t);
      }
    } else {
      var i: nat :| i + 1 < |s| && !StepAt(s, i, interval);
      hide OnGrid, GapSum, OneStepApart, Ascending, Stamps;
      MissesBetween(s, interval, i);
    }
  }

  /** Where two neighbours are not one interval apart, the grid point after the first is missing. */
  lemma MissesBetween(s: seq<Candle>, interval: int, i: nat)
    requires interval > 0 && Ascending(s) && i + 1 < |s|
    requires OnGrid(s[i].timestamp, interval) && OnGrid(s[i + 1].timestamp, interval) && !StepAt(s, i, interval)
    ensures var t := s[i].timestamp + interval;
      && s[i].timestamp in Stamps(s) && s[i + 1].timestamp in Stamps(s)
      && s[i].timestamp <= t <= s[i + 1].timestamp && OnGrid(t, interval) && t !in Stamps(s)
  {
    hide OnGrid;
    GridDistance(s[i].timestamp, s[i + 1].timestamp, interval);
    GridShift(s[i].timestamp, 1, interval);
    MulBound((s[i + 1].timestamp - s[i].timestamp) / interval, interval);
    forall k | 0 <= k < |s| ensures s[k].timestamp != s[i].timestamp + interval {
      assert k <= i || k == i + 1 || i + 1 < k;
    }
  }

  lemma FullBetween(s: seq<Candle>, interval: int, t: int)
    requires interval > 0 && Ascending(s) && forall i :: 0 <= i < |s| ==> OnGrid(s[i].timestamp, interval)
    requires OneStepApart(s, interval)
    requires OnGrid(t, interval) && s != [] && s[0].timestamp <= t <= s[|s| - 1].timestamp
    ensures t in Stamps(s)
  {
    hide OnGrid, Ascending;
    var n := |s| - 1;
    Progression(s, interval, n);
    if t != s[0].timestamp {
      GridDistance(s[0].timestamp, t, interval);
      var k := (t - s[0].timestamp) / interval;
      MulBound(k - n, interval);
      assert t - s[n].timestamp == (k - n) * interval;
      Progression(s, interval, k);
    }
  }

  /** A bootstrap takes exactly the acceptable histories. */
  lemma BootstrapTakes(l: BufferLimits, history: seq<Candle>)
    requires ValidLimits(l)
    ensures Bootstrapped(l, history).Ready? <==> Acceptable(l, history)
  {
    hide SortByTime, GapSum, ByTime, OnGrid;
    var s := SortByTime(history);
    SortOrders(history);
    DistinctCount(s);
    DistinctCount(history);
    StrictWhenDistinct(s);
    assert forall i :: 0 <= i < |s| ==> s[i].timestamp in Stamps(s);
    if Ascending(s) && forall i :: 0 <= i < |s| ==> OnGrid(s[i].timestamp, l.interval) {
      NoGapMeansFull(s, l.interval);
    }
    if history == [] {
      assert s == [];
    }
  }

  /** The newest bars of an ordered list. */
  lemma TailOf(s: seq<Candle>, from: nat)
    requires Ascending(s) && from <= |s|
    ensures Ascending(s[from..]) && |Stamps(s[from..])| == |s| - from
    ensures forall t :: t in Stamps(s[from..]) ==> t in Stamps(s)
    ensures forall t, u :: t in Stamps(s) && t !in Stamps(s[from..]) && u in Stamps(s[from..]) ==> t < u
  {
    var tail := s[from..];
    assert Ascending(tail);
    DistinctCount(tail);
    TailStamps(s, from);
    hide Stamps;
    forall t, u | t in Stamps(s) && t !in Stamps(tail) && u in Stamps(tail) ensures t < u {
      var i :| 0 <= i < from && s[i].timestamp == t;
      var j :| from <= j < |s| && s[j].timestamp == u;
    }
  }

  /** The timestamps of the newest bars are those from position `from` on. */
  lemma TailStamps(s: seq<Candle>, from: nat)
    requires from <= |s|
    ensures forall t :: t in Stamps(s[from..]) <==> exists j :: from <= j < |s| && s[j].timestamp == t
    ensures forall t :: t in Stamps(s) && t !in Stamps(s[from..]) ==> exists i :: 0 <= i < from && s[i].timestamp == t
    ensures forall t :: t in Stamps(s[from..]) ==> t in Stamps(s)
  {
    var tail := s[from..];
    forall j | from <= j < |s| ensures s[j].timestamp in Stamps(tail) {
      assert tail[j - from] == s[j];
    }
  }

  /** The extremes of an ordered list are its ends. */
  lemma EndsAreExtremes(s: seq<Candle>)
    requires Ascending(s) && s != []
    ensures Stamps(s) != {}
    ensures MinOf(Stamps(s)) == s[0].timestamp && MaxOf(Stamps(s)) == s[|s| - 1].timestamp
  {
    hide MaxOf, MinOf;
    assert s[0].timestamp in Stamps(s) && s[|s| - 1].timestamp in Stamps(s);
  }

  lemma StampOf(s: seq<Candle>)
    requires Ascending(s)
    ensures forall t :: t in ByTime(s) ==> ByTime(s)[t].timestamp == t
  {
  }

  lemma TailHolds(s: seq<Candle>, from: nat, l: BufferLimits)
    requires ValidLimits(l) && Ascending(s) && from < |s| && |s| - from <= l.capacity
    requires forall t :: t in Stamps(s) ==> OnGrid(t, l.interval)
    ensures Ascending(s[from..]) && HoldsNewest(ByTime(s[from..]), l, Stamps(s))
    ensures |ByTime(s[from..])| == |s| - from
  {
    hide OnGrid, ByTime, Stamps, Ascending, MaxOf, MinOf;
    TailOf(s, from);
    var tail := s[from..];
    var m := ByTime(tail);
    EndsAreExtremes(s);
    EndsAreExtremes(tail);
    assert |m| == |m.Keys|;
    assert forall t :: t in m ==> m[t].timestamp == t by {
      StampOf(tail);
    }
  }

  /** What the checks of a bootstrap leave: the ordered history, and the buffer cut from it. */
  lemma ReadyMeans(l: BufferLimits, history: seq<Candle>)
    requires ValidLimits(l) && Bootstrapped(l, history).Ready?
    ensures var s := SortByTime(history);
            && s != [] && Ascending(s) && Stamps(s) == Stamps(history)
            && (forall t :: t in Stamps(s) ==> OnGrid(t, l.interval))
            && GapSum(s, l.interval) == 0 && l.minimum <= |s|
            && var from := |s| - Least(|s|, l.capacity);
            && Ascending(s[from..])
            && Bootstrapped(l, history).buffer == Buffer(ByTime(s[from..]), ConfirmedStamps(s), true, 0)
  {
    hide SortByTime, GapSum, ByTime, OnGrid;
    var s := SortByTime(history);
    SortOrders(history);
    StrictWhenDistinct(s);
    ConfirmedAtMost(s);
  }

  /** A gap-free list covers every grid point between its ends. */
  lemma RunCounts(s: seq<Candle>, l: BufferLimits)
    requires ValidLimits(l) && s != [] && Ascending(s) && GapSum(s, l.interval) == 0
    requires forall t :: t in Stamps(s) ==> OnGrid(t, l.interval)
    ensures Stamps(s) != {} && MaxOf(Stamps(s)) - MinOf(Stamps(s)) == (|Stamps(s)| - 1) * l.interval
  {
    hide MaxOf, MinOf, GapSum, OnGrid;
    assert forall i :: 0 <= i < |s| ==> s[i].timestamp in Stamps(s);
    EndsAreExtremes(s);
    NoGapSteps(s, l.interval);
    Progression(s, l.interval, |s| - 1);
    DistinctCount(s);
  }

  /** After a bootstrap the buffer is complete and holds the newest bars of the history. */
  lemma BootstrapKeeps(l: BufferLimits, history: seq<Candle>)
    requires ValidLimits(l) && Bootstrapped(l, history).Ready?
    ensures var b := Bootstrapped(l, history).buffer;
            && Stamps(history) != {}
            && BufferInv(b, l, MinOf(Stamps(history)), Stamps(history))
            && b.complete && b.emitted == ConfirmedStamps(SortByTime(history))
            && b.candles != map[] && MaxOf(b.candles.Keys) == MaxOf(Stamps(history))
  {
    hide Bootstrapped, SortByTime, GapSum, ByTime, OnGrid, MaxOf, MinOf, HoldsNewest, GapFree, Ascending, Stamps;
    ReadyMeans(l, history);
    var s, b := SortByTime(history), Bootstrapped(l, history).buffer;
    var from := |s| - Least(|s|, l.capacity);
    RunCounts(s, l);
    TailHolds(s, from, l);
    TailGapFree(s, from, b.candles, l);
    EndsAreExtremes(s);
    EndsAreExtremes(s[from..]);
  }

  lemma {:induction false} ConfirmedAtMost(s: seq<Candle>)
    ensures CountConfirmed(s) <= |s|
  {
    if s != [] {
      ConfirmedAtMost(s[1..]);
    }
  }

  lemma TailGapFree(s: seq<Candle>, from: nat, candles: map<int, Candle>, l: BufferLimits)
    requires ValidLimits(l) && Ascending(s) && from <= |s| && candles.Keys == Stamps(s[from..])
    requires forall t :: t in Stamps(s) ==> OnGrid(t, l.interval)
    requires GapSum(s, l.interval) == 0
    ensures GapFree(candles, l.interval)
  {
    hide OnGrid, GapSum;
    assert forall i :: 0 <= i < |s| ==> s[i].timestamp in Stamps(s);
    NoGapMeansFull(s, l.interval);
    TailOf(s, from);
  }
}
