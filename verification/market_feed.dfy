/** The realtime market state of one symbol: websocket messages, connection marks, the watchdog, and
    the gate in front of an entry. Every method is one critical section. */
module MarketFeeds {
  import opened Wrappers
  import opened Candles
  import opened CandleBuffers

  datatype StreamState = Connected | Resyncing | Stale | Disconnected

  datatype Endpoint = Public | Business

  datatype Timeframe = OneMinute | ThreeMinutes | FiveMinutes

  /** How far ahead of the receive time an exchange timestamp may be. */
  const FUTURE_TOLERANCE_MS := 5_000

  datatype FeedLimits = FeedLimits(minimum: nat, capacity: nat, staleAfter: int, resyncThreshold: int)

  function IntervalOf(tf: Timeframe): int {
    match tf
    case OneMinute => 60_000
    case ThreeMinutes => 180_000
    case FiveMinutes => 300_000
  }

  function LimitsOf(l: FeedLimits, tf: Timeframe): BufferLimits {
    BufferLimits(IntervalOf(tf), l.capacity, l.minimum)
  }

  predicate ValidFeedLimits(l: FeedLimits) {
    1 <= l.minimum <= l.capacity
  }

  datatype Quotes = Quotes(price: Option<real>, bid: Option<real>, ask: Option<real>)

  datatype Status = Status(
    stream: StreamState, publicUp: bool, businessUp: bool, instrument: Option<string>, quotes: Quotes,
    exchangeTime: Option<int>, bookSequence: Option<int>, bookTime: Option<int>)

  datatype Feed = Feed(status: Status, buffers: map<Timeframe, Buffer>)

  const INITIAL_STATUS := Status(Disconnected, false, false, None, Quotes(None, None, None), None, None, None)

  const INITIAL_FEED := Feed(INITIAL_STATUS, map[OneMinute := EMPTY_BUFFER, ThreeMinutes := EMPTY_BUFFER, FiveMinutes := EMPTY_BUFFER])

  lemma EveryTimeframe(buffers: map<Timeframe, Buffer>)
    requires OneMinute in buffers && ThreeMinutes in buffers && FiveMinutes in buffers
    ensures forall tf: Timeframe :: tf in buffers
  {
    forall tf: Timeframe ensures tf in buffers {
      assert tf.OneMinute? || tf.ThreeMinutes? || tf.FiveMinutes?;
    }
  }

  predicate HasBuffers(f: Feed) {
    forall tf: Timeframe :: tf in f.buffers
  }

  // ----- what CONNECTED means -----

  predicate GoodQuotes(q: Quotes) {
    && q.price.Some? && q.bid.Some? && q.ask.Some?
    && q.price.value > 0.0 && q.bid.value > 0.0 && q.ask.value > 0.0 && q.bid.value <= q.ask.value
  }

  lemma QuotesMean(q: Quotes)
    ensures GoodQuotes(q) <==>
      match (q.price, q.bid, q.ask)
      case (Some(price), Some(bid), Some(ask)) => 0.0 < price && 0.0 < bid <= ask
      case _ => false
  {
  }

  predicate AllComplete(f: Feed)
    requires HasBuffers(f)
  {
    f.buffers[OneMinute].complete && f.buffers[ThreeMinutes].complete && f.buffers[FiveMinutes].complete
  }

  predicate IsReady(f: Feed)
    requires HasBuffers(f)
  {
    f.status.publicUp && f.status.businessUp && f.status.instrument.Some? && GoodQuotes(f.status.quotes) && AllComplete(f)
  }

  /** A buffer as some history of updates left it. */
  ghost predicate Reached(b: Buffer, l: BufferLimits) {
    exists first: int, seen: set<int> :: BufferInv(b, l, first, seen)
  }

  ghost predicate FeedInv(f: Feed, l: FeedLimits) {
    && ValidFeedLimits(l) && HasBuffers(f)
    && (forall tf: Timeframe :: Reached(f.buffers[tf], LimitsOf(l, tf)))
    && (f.status.stream.Connected? ==> IsReady(f))
  }

  // ----- the steps -----

  function Promote(f: Feed): Feed
    requires HasBuffers(f)
  {
    if IsReady(f) then f.(status := f.status.(stream := Connected)) else f
  }

  predicate ValidQuote(bid: real, ask: real, timestamp: int, received: int) {
    && 0.0 < bid <= ask
    && 0 < timestamp <= received + FUTURE_TOLERANCE_MS
  }

  datatype Row = Unreadable | Bar(candle: Candle)

  datatype RowsResult = RowsResult(buffer: Buffer, gap: bool, events: seq<int>, raised: bool)

  predicate IsBadRow(r: Row, received: int) {
    r.Unreadable? || r.candle.timestamp > received + FUTURE_TOLERANCE_MS
  }

  /** A quote counts when it is ordered, positive and dated, and neither it nor a bar may be dated more than five seconds
      ahead. */
  lemma DatesMean(bid: real, ask: real, timestamp: int, received: int, c: Candle)
    ensures ValidQuote(bid, ask, timestamp, received) <==>
      !(bid <= 0.0 || ask < bid || timestamp <= 0 || timestamp - received > 5_000)
    ensures IsBadRow(Unreadable, received)
    ensures IsBadRow(Bar(c), received) <==> c.timestamp - received > 5_000
  {
  }

  /** The rows of one candle message, up to the first unreadable one. */
  ghost function ApplyRows(b: Buffer, l: BufferLimits, rows: seq<Row>, received: int): RowsResult
    requires ValidLimits(l)
    decreases |rows|
  {
    if rows == [] then RowsResult(b, false, [], false)
    else
      var before := ApplyRows(b, l, rows[..|rows| - 1], received);
      var row := rows[|rows| - 1];
      if before.raised || IsBadRow(row, received) then before.(raised := true)
      else
        var (after, u) := Applied(before.buffer, l, row.candle);
        RowsResult(after, before.gap || u.missing != 0,
                   if u.event then before.events + [row.candle.timestamp] else before.events, false)
  }

  datatype Event =
    | Bootstraps(histories: map<Timeframe, seq<Candle>>, instrument: string, now: int)
    | Seeds(price: real, bid: real, ask: real, timestamp: int, received: int)
    | MarksResyncing
    | MarksDisconnected(lost: Option<Endpoint>)
    | MarksConnected(endpoint: Endpoint)
    | Ticker(price: real, bid: real, ask: real, timestamp: int, received: int)
    | Book(bid: real, ask: real, sequence: int, timestamp: int, received: int)
    | CandleRows(timeframe: Timeframe, rows: seq<Row>, received: int)
    | Watches(now: int)

  function TickerStep(f: Feed, e: Event): (Feed, bool)
    requires HasBuffers(f) && e.Ticker?
  {
    var s := f.status;
    if e.price <= 0.0 || !ValidQuote(e.bid, e.ask, e.timestamp, e.received) then (f, true)
    else if s.exchangeTime.Some? && e.timestamp < s.exchangeTime.value then (f, false)
    else if s.exchangeTime == Some(e.timestamp) && s.quotes == Quotes(Some(e.price), Some(e.bid), Some(e.ask)) then (f, false)
    else
      (Promote(f.(status := s.(quotes := Quotes(Some(e.price), Some(e.bid), Some(e.ask)), exchangeTime := Some(e.timestamp)))), false)
  }

  function SeedStep(f: Feed, e: Event): (Feed, bool)
    requires e.Seeds?
  {
    if e.price <= 0.0 || !ValidQuote(e.bid, e.ask, e.timestamp, e.received) then (f, true)
    else
      (f.(status := f.status.(quotes := Quotes(Some(e.price), Some(e.bid), Some(e.ask)), exchangeTime := Some(e.timestamp))), false)
  }

  /** A sequence number that fell by the threshold or more. */
  predicate Regressed(s: Status, sequence: int, threshold: int) {
    s.bookSequence.Some? && sequence < s.bookSequence.value && s.bookSequence.value - sequence >= threshold
  }

  function BookStep(f: Feed, e: Event, l: FeedLimits): (Feed, bool)
    requires HasBuffers(f) && e.Book?
  {
    var s := f.status;
    if !ValidQuote(e.bid, e.ask, e.timestamp, e.received) || e.sequence < 0 then (f, true)
    else if Regressed(s, e.sequence, l.resyncThreshold) then
      (f.(status := s.(stream := Resyncing, publicUp := false, bookSequence := None, bookTime := None)), true)
    else if s.bookSequence.Some? && e.sequence < s.bookSequence.value then (f, false)
    else if s.bookSequence == Some(e.sequence) && s.quotes.bid == Some(e.bid) && s.quotes.ask == Some(e.ask) then (f, false)
    else
      (Promote(f.(status := s.(quotes := s.quotes.(bid := Some(e.bid), ask := Some(e.ask)),
                               bookSequence := Some(e.sequence), bookTime := Some(e.timestamp)))), false)
  }

  ghost function CandleStep(f: Feed, e: Event, l: FeedLimits): (Feed, bool)
    requires ValidFeedLimits(l) && HasBuffers(f) && e.CandleRows?
  {
    var r := ApplyRows(f.buffers[e.timeframe], LimitsOf(l, e.timeframe), e.rows, e.received);
    var after := f.(buffers := f.buffers[e.timeframe := r.buffer],
                    status := if r.gap then f.status.(stream := Stale) else f.status);
    (if r.raised then after else Promote(after), r.raised)
  }

  /** One buffer of a symbol bootstrap: refused, or taken but from the future, or taken. */
  ghost function BootstrapOne(f: Feed, l: FeedLimits, e: Event, tf: Timeframe): (Feed, bool)
    requires ValidFeedLimits(l) && HasBuffers(f) && e.Bootstraps? && tf in e.histories
  {
    BootstrapIsNonEmpty(LimitsOf(l, tf), e.histories[tf]);
    match Bootstrapped(LimitsOf(l, tf), e.histories[tf])
    case DataInvalid(_) => (f, true)
    case Ready(b) => (f.(buffers := f.buffers[tf := b]), MaxOf(b.candles.Keys) > e.now + FUTURE_TOLERANCE_MS)
  }

  lemma BootstrapIsNonEmpty(l: BufferLimits, history: seq<Candle>)
    requires ValidLimits(l)
    ensures Bootstrapped(l, history).Ready? ==> Bootstrapped(l, history).buffer.candles.Keys != {}
  {
    hide Bootstrapped;
    if Bootstrapped(l, history).Ready? {
      BootstrapKeeps(l, history);
    }
  }

  predicate HasHistories(e: Event)
    requires e.Bootstraps?
  {
    OneMinute in e.histories && ThreeMinutes in e.histories && FiveMinutes in e.histories
  }

  ghost function BootstrapStep(f: Feed, e: Event, l: FeedLimits): (Feed, bool)
    requires ValidFeedLimits(l) && HasBuffers(f) && e.Bootstraps? && HasHistories(e)
  {
    var (f1, raised1) := BootstrapOne(f, l, e, OneMinute);
    if raised1 then (f1, true)
    else
      var (f2, raised2) := BootstrapOne(f1, l, e, ThreeMinutes);
      if raised2 then (f2, true)
      else
        var (f3, raised3) := BootstrapOne(f2, l, e, FiveMinutes);
        if raised3 then (f3, true)
        else (f3.(status := f3.status.(instrument := Some(e.instrument), bookSequence := None, bookTime := None,
                                       stream := Resyncing)), false)
  }

  /** The last confirmed bar of a timeframe closed no longer ago than one interval and the tolerance. */
  ghost predicate IsFresh(b: Buffer, tf: Timeframe, l: FeedLimits, now: int) {
    && LastConfirmedOf(b).Some?
    && now - (LastConfirmedOf(b).value + IntervalOf(tf)) <= IntervalOf(tf) + l.staleAfter
  }

  ghost predicate AllFresh(f: Feed, l: FeedLimits, now: int)
    requires HasBuffers(f)
  {
    && IsFresh(f.buffers[OneMinute], OneMinute, l, now)
    && IsFresh(f.buffers[ThreeMinutes], ThreeMinutes, l, now)
    && IsFresh(f.buffers[FiveMinutes], FiveMinutes, l, now)
  }

  ghost function WatchStep(f: Feed, l: FeedLimits, now: int): Feed
    requires HasBuffers(f)
  {
    var s := f.status;
    if s.stream.Connected? && s.exchangeTime.Some? && s.bookTime.Some? && AllFresh(f, l, now) then f
    else if s.stream.Disconnected? then f
    else f.(status := s.(stream := Stale))
  }

  /** Every event: the feed after it, and whether it raised. */
  ghost function Handled(f: Feed, e: Event, l: FeedLimits): (Feed, bool)
    requires ValidFeedLimits(l) && HasBuffers(f) && (e.Bootstraps? ==> HasHistories(e))
  {
    match e
    case Bootstraps(_, _, _) => BootstrapStep(f, e, l)
    case Seeds(_, _, _, _, _) => SeedStep(f, e)
    case MarksResyncing => (f.(status := f.status.(stream := Resyncing, publicUp := false, businessUp := false)), false)
    case MarksDisconnected(lost) =>
      (f.(status := f.status.(stream := Disconnected,
                              publicUp := f.status.publicUp && lost == Some(Business),
                              businessUp := f.status.businessUp && lost == Some(Public))), false)
    case MarksConnected(endpoint) =>
      (Promote(f.(status := f.status.(publicUp := f.status.publicUp || endpoint.Public?,
                                      businessUp := f.status.businessUp || endpoint.Business?))), false)
    case Ticker(_, _, _, _, _) => TickerStep(f, e)
    case Book(_, _, _, _, _) => BookStep(f, e, l)
    case CandleRows(_, _, _) => CandleStep(f, e, l)
    case Watches(now) => (WatchStep(f, l, now), false)
  }

  // ----- what every event keeps -----

  lemma ReachedBy(b: Buffer, l: BufferLimits, c: Candle)
    requires ValidLimits(l) && Reached(b, l)
    ensures var (b', u) := Applied(b, l, c);
            Reached(b', l) && (b'.complete ==> b.complete) && u.missing >= 0 && (b.complete && !b'.complete ==> u.missing > 0)
  {
    hide BufferInv, Applied;
    var first: int, seen: set<int> :| BufferInv(b, l, first, seen);
    ApplyKeeps(b, l, first, seen, c);
    GapIsReported(b, l, first, seen, c);
  }

  /** The rows of a message keep the buffer, and report it when it stops being complete. */
  lemma {:induction false} RowsKeep(b: Buffer, l: BufferLimits, rows: seq<Row>, received: int)
    requires ValidLimits(l) && Reached(b, l)
    ensures var r := ApplyRows(b, l, rows, received);
            Reached(r.buffer, l) && (r.gap || (r.buffer.complete <==> b.complete))
    decreases |rows|
  {
    hide Reached, Applied;
    if rows != [] {
      var prefix := rows[..|rows| - 1];
      RowsKeep(b, l, prefix, received);
      var r := ApplyRows(b, l, prefix, received);
      if !r.raised && !IsBadRow(rows[|rows| - 1], received) {
        ReachedBy(r.buffer, l, rows[|rows| - 1].candle);
      }
    }
  }

  lemma BootstrapOneKeeps(f: Feed, l: FeedLimits, e: Event, tf: Timeframe)
    requires FeedInv(f, l) && e.Bootstraps? && tf in e.histories
    ensures FeedInv(BootstrapOne(f, l, e, tf).0, l)
    ensures BootstrapOne(f, l, e, tf).0.status == f.status
  {
    hide Bootstrapped, MaxOf, BufferInv;
    var history, bl := e.histories[tf], LimitsOf(l, tf);
    BootstrapIsNonEmpty(bl, history);
    if Bootstrapped(bl, history).Ready? {
      BootstrapKeeps(bl, history);
    }
  }

  /** A step that leaves the buffers alone, and is CONNECTED only if it is ready. */
  lemma StatusKeeps(f: Feed, f': Feed, l: FeedLimits)
    requires FeedInv(f, l) && f'.buffers == f.buffers && (f'.status.stream.Connected? ==> IsReady(f'))
    ensures FeedInv(f', l)
  {
    hide Reached, IsReady;
  }

  /** Every event keeps what CONNECTED means. */
  lemma HandledKeeps(f: Feed, e: Event, l: FeedLimits)
    requires FeedInv(f, l) && (e.Bootstraps? ==> HasHistories(e))
    ensures FeedInv(Handled(f, e, l).0, l)
  {
    hide FeedInv, BootstrapStep, CandleStep, HasBuffers, AllComplete, AllFresh, IsFresh;
    FeedFacts(f, l);
    match e {
      case Bootstraps(_, _, _) =>
        BootstrapStepKeeps(f, e, l);
      case CandleRows(_, _, _) =>
        CandleStepKeeps(f, e, l);
      case Watches(now) =>
        StatusKeeps(f, WatchStep(f, l, now), l);
      case _ =>
        QuoteStepKeeps(f, e, l);
    }
  }

  lemma FeedFacts(f: Feed, l: FeedLimits)
    requires FeedInv(f, l)
    ensures ValidFeedLimits(l) && HasBuffers(f) && (f.status.stream.Connected? ==> IsReady(f))
  {
  }

  lemma QuoteStepKeeps(f: Feed, e: Event, l: FeedLimits)
    requires FeedInv(f, l) && !e.Bootstraps? && !e.CandleRows? && !e.Watches?
    ensures FeedInv(Handled(f, e, l).0, l)
  {
    hide FeedInv, HasBuffers;
    FeedFacts(f, l);
    SameBuffers(f, e, l);
    StatusKeeps(f, Handled(f, e, l).0, l);
  }

  lemma SameBuffers(f: Feed, e: Event, l: FeedLimits)
    requires ValidFeedLimits(l) && HasBuffers(f) && !e.Bootstraps? && !e.CandleRows?
    ensures Handled(f, e, l).0.buffers == f.buffers
  {
    hide HasBuffers, IsReady, AllFresh;
  }

  lemma BootstrapStepKeeps(f: Feed, e: Event, l: FeedLimits)
    requires FeedInv(f, l) && e.Bootstraps? && HasHistories(e)
    ensures FeedInv(BootstrapStep(f, e, l).0, l)
  {
    hide BootstrapOne, Reached;
    BootstrapOneKeeps(f, l, e, OneMinute);
    var f1 := BootstrapOne(f, l, e, OneMinute).0;
    BootstrapOneKeeps(f1, l, e, ThreeMinutes);
    var f2 := BootstrapOne(f1, l, e, ThreeMinutes).0;
    BootstrapOneKeeps(f2, l, e, FiveMinutes);
  }

  lemma CandleStepKeeps(f: Feed, e: Event, l: FeedLimits)
    requires FeedInv(f, l) && e.CandleRows?
    ensures FeedInv(CandleStep(f, e, l).0, l)
  {
    hide ApplyRows, Reached;
    RowsKeep(f.buffers[e.timeframe], LimitsOf(l, e.timeframe), e.rows, e.received);
  }

  lemma EmptyReached(l: BufferLimits)
    requires ValidLimits(l)
    ensures Reached(EMPTY_BUFFER, l)
  {
    hide MaxOf;
    assert BufferInv(EMPTY_BUFFER, l, 0, {});
  }

  lemma InitiallyFeedInv(l: FeedLimits)
    requires ValidFeedLimits(l)
    ensures FeedInv(INITIAL_FEED, l)
  {
    hide Reached;
    forall tf: Timeframe ensures tf in INITIAL_FEED.buffers && INITIAL_FEED.buffers[tf] == EMPTY_BUFFER && Reached(EMPTY_BUFFER, LimitsOf(l, tf)) {
      EmptyReached(LimitsOf(l, tf));
      assert tf.OneMinute? || tf.ThreeMinutes? || tf.FiveMinutes?;
    }
  }

  // ----- runs -----

  ghost predicate HandleableRun(es: seq<Event>) {
    forall i :: 0 <= i < |es| && es[i].Bootstraps? ==> HasHistories(es[i])
  }

  /** The feed after the first `n` events. */
  ghost function After(es: seq<Event>, l: FeedLimits, n: nat): (f: Feed)
    requires ValidFeedLimits(l) && HandleableRun(es) && n <= |es|
    ensures FeedInv(f, l) && HasBuffers(f)
  {
    if n == 0 then
      InitiallyFeedInv(l);
      INITIAL_FEED
    else
      HandledKeeps(After(es, l, n - 1), es[n - 1], l);
      FeedFacts(Handled(After(es, l, n - 1), es[n - 1], l).0, l);
      Handled(After(es, l, n - 1), es[n - 1], l).0
  }

  /** Event `e` is a websocket book that the feed took. */
  ghost predicate TakesBook(f: Feed, e: Event, l: FeedLimits)
    requires HasBuffers(f)
  {
    && e.Book? && ValidQuote(e.bid, e.ask, e.timestamp, e.received) && e.sequence >= 0
    && (f.status.bookSequence.Some? ==> f.status.bookSequence.value <= e.sequence)
  }

  /** Event `e` makes the feed forget its book: a bootstrap that went through, or a regression. */
  ghost predicate ForgetsBook(f: Feed, e: Event, l: FeedLimits)
    requires ValidFeedLimits(l) && HasBuffers(f) && (e.Bootstraps? ==> HasHistories(e))
  {
    || (e.Bootstraps? && !BootstrapStep(f, e, l).1)
    || (e.Book? && ValidQuote(e.bid, e.ask, e.timestamp, e.received) && e.sequence >= 0 &&
        Regressed(f.status, e.sequence, l.resyncThreshold))
  }

  /** Among the first `n` events there is a book, and nothing after it made the feed forget it. */
  ghost predicate BookStands(es: seq<Event>, l: FeedLimits, n: nat)
    requires ValidFeedLimits(l) && HandleableRun(es) && n <= |es|
  {
    exists i :: 0 <= i < n && TakesBook(After(es, l, i), es[i], l) &&
      forall j :: i < j < n ==> !ForgetsBook(After(es, l, j), es[j], l)
  }

  lemma BookStepKeeps(f: Feed, e: Event, l: FeedLimits)
    requires FeedInv(f, l) && HasBuffers(f) && (e.Bootstraps? ==> HasHistories(e))
    requires Handled(f, e, l).0.status.bookTime.Some?
    ensures TakesBook(f, e, l) || (f.status.bookTime.Some? && !ForgetsBook(f, e, l))
  {
    hide HasBuffers, FeedInv, IsReady, AllFresh, ApplyRows;
    FeedFacts(f, l);
    if e.Bootstraps? {
      BootstrapStatus(f, e, l);
    }
  }

  lemma BootstrapStatus(f: Feed, e: Event, l: FeedLimits)
    requires FeedInv(f, l) && HasBuffers(f) && e.Bootstraps? && HasHistories(e)
    ensures var (f', raised) := BootstrapStep(f, e, l);
            if raised then f'.status == f.status
            else f'.status.stream.Resyncing? && f'.status.bookTime.None? && f'.status.bookSequence.None?
  {
    hide BootstrapOne, Reached;
    BootstrapOneKeeps(f, l, e, OneMinute);
    var f1 := BootstrapOne(f, l, e, OneMinute).0;
    BootstrapOneKeeps(f1, l, e, ThreeMinutes);
    var f2 := BootstrapOne(f1, l, e, ThreeMinutes).0;
    BootstrapOneKeeps(f2, l, e, FiveMinutes);
  }

  /** A book timestamp is never left over from before a bootstrap or a regression. */
  lemma {:induction false} BookIsCurrent(es: seq<Event>, l: FeedLimits, n: nat)
    requires ValidFeedLimits(l) && HandleableRun(es) && n <= |es|
    requires After(es, l, n).status.bookTime.Some?
    ensures BookStands(es, l, n)
  {
    hide Handled, FeedInv, HasBuffers, TakesBook, ForgetsBook;
    if n > 0 {
      var f, e := After(es, l, n - 1), es[n - 1];
      BookStepKeeps(f, e, l);
      if TakesBook(f, e, l) {
      } else {
        BookIsCurrent(es, l, n - 1);
        var i :| 0 <= i < n - 1 && TakesBook(After(es, l, i), es[i], l) &&
          forall j :: i < j < n - 1 ==> !ForgetsBook(After(es, l, j), es[j], l);
      }
    }
  }

  /** Passing the entry gate when nothing comes between its two critical sections: the feed is ready,
      every timeframe is fresh, and a websocket book stands since the last bootstrap or regression. */
  lemma GateMeans(es: seq<Event>, l: FeedLimits, now: int)
    requires ValidFeedLimits(l) && HandleableRun(es)
    requires WatchStep(After(es, l, |es|), l, now).status.stream.Connected?
    ensures var f := After(es, l, |es|);
            IsReady(f) && AllFresh(f, l, now) && BookStands(es, l, |es|)
  {
    hide Handled, AllFresh, IsReady, BookStands;
    var f := After(es, l, |es|);
    FeedFacts(f, l);
    BookIsCurrent(es, l, |es|);
  }

  /** Event `e` ends by promoting the feed if it is ready: a connection mark, a ticker or a book that was
      taken, or a candle message that could be read to its end, duplicates included. */
  ghost predicate Promotes(f: Feed, e: Event, l: FeedLimits)
    requires ValidFeedLimits(l) && HasBuffers(f)
  {
    match e
    case MarksConnected(_) => true
    case Ticker(price, bid, ask, timestamp, received) =>
      && price > 0.0 && ValidQuote(bid, ask, timestamp, received)
      && (f.status.exchangeTime.Some? ==>
            || f.status.exchangeTime.value < timestamp
            || (f.status.exchangeTime.value == timestamp && f.status.quotes != Quotes(Some(price), Some(bid), Some(ask))))
    case Book(bid, ask, sequence, _, _) =>
      && TakesBook(f, e, l)
      && !(f.status.bookSequence == Some(sequence) && f.status.quotes.bid == Some(bid) && f.status.quotes.ask == Some(ask))
    case CandleRows(timeframe, rows, received) =>
      !ApplyRows(f.buffers[timeframe], LimitsOf(l, timeframe), rows, received).raised
    case _ => false
  }

  /** Event `e` takes CONNECTED away. */
  ghost predicate Unsets(f: Feed, e: Event, l: FeedLimits)
    requires ValidFeedLimits(l) && HasBuffers(f) && (e.Bootstraps? ==> HasHistories(e))
  {
    match e
    case Bootstraps(_, _, _) => !BootstrapStep(f, e, l).1
    case MarksResyncing => true
    case MarksDisconnected(_) => true
    case Book(bid, ask, sequence, timestamp, received) =>
      ValidQuote(bid, ask, timestamp, received) && sequence >= 0 && Regressed(f.status, sequence, l.resyncThreshold)
    case CandleRows(timeframe, rows, received) =>
      ApplyRows(f.buffers[timeframe], LimitsOf(l, timeframe), rows, received).gap
    case Watches(now) =>
      !(f.status.exchangeTime.Some? && f.status.bookTime.Some? && AllFresh(f, l, now))
    case _ => false
  }

  /** After any event the feed is CONNECTED exactly when the event promoted it and it is ready, or it was
      CONNECTED and the event did not take that away. */
  lemma ConnectedIff(f: Feed, e: Event, l: FeedLimits)
    requires FeedInv(f, l) && HasBuffers(f) && (e.Bootstraps? ==> HasHistories(e))
    ensures HasBuffers(Handled(f, e, l).0)
    ensures Handled(f, e, l).0.status.stream.Connected? <==>
      (Promotes(f, e, l) && IsReady(Handled(f, e, l).0)) || (f.status.stream.Connected? && !Unsets(f, e, l))
  {
    hide Reached, AllFresh, BootstrapStep, ApplyRows, GoodQuotes, HasBuffers, FeedInv;
    FeedFacts(f, l);
    HandledKeeps(f, e, l);
    FeedFacts(Handled(f, e, l).0, l);
    if e.Bootstraps? {
      BootstrapStatus(f, e, l);
    } else if e.CandleRows? {
      RowsConnectedIff(f, e, l);
    }
  }

  lemma RowsConnectedIff(f: Feed, e: Event, l: FeedLimits)
    requires FeedInv(f, l) && HasBuffers(f) && e.CandleRows?
    ensures HasBuffers(CandleStep(f, e, l).0)
    ensures CandleStep(f, e, l).0.status.stream.Connected? <==>
      (Promotes(f, e, l) && IsReady(CandleStep(f, e, l).0)) || (f.status.stream.Connected? && !Unsets(f, e, l))
  {
    hide Reached, ApplyRows, GoodQuotes;
    CandleStepKeeps(f, e, l);
  }

  /** The entry gate with one event between its two critical sections. It passes when the watchdog left
      the feed CONNECTED and the event did not take that away; and besides exactly when the event promotes
      a feed that is ready, which asks for no book and for no fresh bars. */
  lemma DisturbedGateIff(f: Feed, e: Event, l: FeedLimits, now: int)
    requires FeedInv(f, l) && HasBuffers(f) && (e.Bootstraps? ==> HasHistories(e))
    ensures var w := WatchStep(f, l, now);
      && HasBuffers(w) && HasBuffers(Handled(w, e, l).0)
      && (Handled(w, e, l).0.status.stream.Connected? <==>
            || (Promotes(w, e, l) && IsReady(Handled(w, e, l).0))
            || (w.status.stream.Connected? && !Unsets(w, e, l)))
      && (w.status.stream.Connected? <==>
            f.status.stream.Connected? && f.status.exchangeTime.Some? && f.status.bookTime.Some? && AllFresh(f, l, now))
  {
    hide FeedInv, Promotes, Unsets, Handled, AllFresh, HasBuffers, IsReady;
    HandledKeeps(f, Watches(now), l);
    WatchIsHandled(f, l, now);
    FeedFacts(WatchStep(f, l, now), l);
    ConnectedIff(WatchStep(f, l, now), e, l);
  }

  lemma WatchIsHandled(f: Feed, l: FeedLimits, now: int)
    requires FeedInv(f, l) && HasBuffers(f)
    ensures Handled(f, Watches(now), l).0 == WatchStep(f, l, now)
  {
    hide AllFresh, FeedInv;
    FeedFacts(f, l);
  }

  /** When a ticker comes between the watchdog and the last check, the gate no longer asks for a book
      or for fresh bars: it passes exactly when the connections, the instrument and the buffers are
      there. */
  lemma TickerReopensGate(f: Feed, e: Event, l: FeedLimits, now: int)
    requires FeedInv(f, l) && HasBuffers(f) && e.Ticker?
    requires e.price > 0.0 && ValidQuote(e.bid, e.ask, e.timestamp, e.received)
    requires f.status.exchangeTime.Some? ==> f.status.exchangeTime.value < e.timestamp
    ensures Handled(WatchStep(f, l, now), e, l).0.status.stream.Connected? <==>
            f.status.publicUp && f.status.businessUp && f.status.instrument.Some? && AllComplete(f)
  {
    hide AllFresh, Reached, FeedInv;
    FeedFacts(f, l);
    DisturbedGateIff(f, e, l, now);
  }

  /** One bar of every timeframe, both endpoints and a seed: a ready feed that never had a book. */
  function SeededEvents(): seq<Event> {
    var bar := Candle(0, 1.0, 1.0, 1.0, 1.0, 1.0, 1.0, true);
    [Bootstraps(map[OneMinute := [bar], ThreeMinutes := [bar], FiveMinutes := [bar]], "BTC-USDT", 0),
     Seeds(1.0, 1.0, 1.0, 1, 1), MarksConnected(Public), MarksConnected(Business)]
  }

  lemma OneBar(l: BufferLimits, history: seq<Candle>)
    requires ValidLimits(l) && l.minimum == 1 && |history| == 1 && history[0].timestamp == 0 && history[0].confirmed
    ensures var r := Bootstrapped(l, history);
            r.Ready? && r.buffer.complete && r.buffer.candles.Keys != {} && MaxOf(r.buffer.candles.Keys) == 0
  {
    assert SortByTime(history) == history by {
      assert history[1..] == [];
    }
    hide SortByTime, Bootstrapped, BufferInv;
    BootstrapTakes(l, history);
    assert Stamps(history) == {0};
    assert CountConfirmed(history) == 1 by {
      assert history[1..] == [];
    }
    BootstrapKeeps(l, history);
  }

  lemma SeededBootstrap(f: Feed, e: Event, l: FeedLimits)
    requires l == FeedLimits(1, 1, 0, 1) && HasBuffers(f) && e == SeededEvents()[0]
    ensures HasHistories(e) && !BootstrapStep(f, e, l).1
    ensures var g := BootstrapStep(f, e, l).0;
      && HasBuffers(g) && AllComplete(g)
      && g.status == f.status.(instrument := Some("BTC-USDT"), bookSequence := None, bookTime := None, stream := Resyncing)
  {
    hide Bootstrapped, MaxOf;
    OneBar(LimitsOf(l, OneMinute), e.histories[OneMinute]);
    OneBar(LimitsOf(l, ThreeMinutes), e.histories[ThreeMinutes]);
    OneBar(LimitsOf(l, FiveMinutes), e.histories[FiveMinutes]);
  }

  lemma SeededMarks(f: Feed, l: FeedLimits)
    requires ValidFeedLimits(l) && HasBuffers(f) && AllComplete(f)
    requires f.status.instrument.Some? && f.status.bookTime.None? && f.status.stream.Resyncing?
    ensures var es := SeededEvents();
      var f2 := Handled(f, es[1], l).0;
      HasBuffers(f2) &&
      var f3 := Handled(f2, es[2], l).0;
      HasBuffers(f3) &&
      var f4 := Handled(f3, es[3], l).0;
      HasBuffers(f4) && f4.status.stream.Connected? && f4.status.bookTime.None? && IsReady(f4)
  {
  }

  /** A reachable feed that never had a book: the watchdog finds it STALE, a connection mark makes it
      CONNECTED again, and the gate passes. */
  lemma GatePassesWithoutBook(l: FeedLimits, now: int)
    requires l == FeedLimits(1, 1, 0, 1)
    ensures HandleableRun(SeededEvents()) && forall e :: e in SeededEvents() ==> !e.Book?
    ensures var f := After(SeededEvents(), l, |SeededEvents()|);
      && WatchStep(f, l, now).status.stream.Stale?
      && Handled(WatchStep(f, l, now), MarksConnected(Public), l).0.status.stream.Connected?
      && Handled(WatchStep(f, l, now), MarksConnected(Public), l).0.status.bookTime.None?
  {
    hide Handled, HandleableRun, FeedInv, AllFresh, IsFresh;
    var es := SeededEvents();
    SeededAreHandleable();
    SeededAfter(l);
    var f := After(es, l, 4);
    assert !WatchStep(f, l, now).status.stream.Connected?;
    MarkPromotes(WatchStep(f, l, now), l);
  }

  lemma SeededAreHandleable()
    ensures HandleableRun(SeededEvents()) && forall e :: e in SeededEvents() ==> !e.Book?
  {
  }

  lemma MarkPromotes(f: Feed, l: FeedLimits)
    requires ValidFeedLimits(l) && HasBuffers(f) && IsReady(f)
    ensures var g := Handled(f, MarksConnected(Public), l).0;
      g.status.stream.Connected? && g.status.bookTime == f.status.bookTime
  {
  }

  lemma SeededAfter(l: FeedLimits)
    requires l == FeedLimits(1, 1, 0, 1) && HandleableRun(SeededEvents())
    ensures var f := After(SeededEvents(), l, 4);
      f.status.stream.Connected? && f.status.bookTime.None? && IsReady(f)
  {
    hide FeedInv, BootstrapStep, Reached, IsReady;
    var es := SeededEvents();
    var f0 := After(es, l, 0);
    SeededBootstrap(f0, es[0], l);
    var f1 := After(es, l, 1);
    assert f1 == BootstrapStep(f0, es[0], l).0;
    SeededMarks(f1, l);
    var f2, f3 := After(es, l, 2), After(es, l, 3);
    assert f2 == Handled(f1, es[1], l).0;
    assert f3 == Handled(f2, es[2], l).0;
    assert After(es, l, 4) == Handled(f3, es[3], l).0;
  }

  // ----- the state in memory -----

  class SymbolFeed {
    const limits: FeedLimits
    const one: CandleBuffer
    const three: CandleBuffer
    const five: CandleBuffer
    var status: Status

    ghost predicate Valid()
      reads this
    {
      && ValidFeedLimits(limits)
      && one.limits == LimitsOf(limits, OneMinute) && three.limits == LimitsOf(limits, ThreeMinutes)
      && five.limits == LimitsOf(limits, FiveMinutes)
      && one != three && three != five && one != five
    }

    ghost function View(): (f: Feed)
      reads this, one, three, five
      ensures HasBuffers(f)
    {
      var buffers := map[OneMinute := one.View(), ThreeMinutes := three.View(), FiveMinutes := five.View()];
      EveryTimeframe(buffers);
      Feed(status, buffers)
    }

    constructor (l: FeedLimits)
      requires ValidFeedLimits(l)
      ensures Valid() && limits == l && View() == INITIAL_FEED
      ensures fresh(one) && fresh(three) && fresh(five)
    {
      limits := l;
      one := new CandleBuffer(LimitsOf(l, OneMinute));
      three := new CandleBuffer(LimitsOf(l, ThreeMinutes));
      five := new CandleBuffer(LimitsOf(l, FiveMinutes));
      status := INITIAL_STATUS;
    }

    function BufferOf(tf: Timeframe): CandleBuffer {
      match tf
      case OneMinute => one
      case ThreeMinutes => three
      case FiveMinutes => five
    }

    /** `_promote_if_ready`: CONNECTED as soon as the connections, the instrument, the quotes and the
        buffers are there. It asks neither for a book nor for fresh bars. */
    method PromoteIfReady()
      modifies this`status
      ensures View() == Promote(old(View()))
    {
      if !status.publicUp || !status.businessUp {
        return;
      }
      if status.instrument.None? || !GoodQuotes(status.quotes) {
        return;
      }
      if one.complete && three.complete && five.complete {
        status := status.(stream := Connected);
      }
    }

    method ApplyTicker(e: Event) returns (raised: bool)
      requires e.Ticker?
      modifies this`status
      ensures (View(), raised) == TickerStep(old(View()), e)
    {
      hide IsReady, HasBuffers;
      if e.price <= 0.0 || !ValidQuote(e.bid, e.ask, e.timestamp, e.received) {
        return true;
      }
      raised := false;
      if status.exchangeTime.Some? && e.timestamp < status.exchangeTime.value {
        return;
      }
      if status.exchangeTime == Some(e.timestamp) && status.quotes == Quotes(Some(e.price), Some(e.bid), Some(e.ask)) {
        return;
      }
      status := status.(quotes := Quotes(Some(e.price), Some(e.bid), Some(e.ask)), exchangeTime := Some(e.timestamp));
      PromoteIfReady();
    }

    method ApplyBook(e: Event) returns (raised: bool)
      requires e.Book?
      modifies this`status
      ensures (View(), raised) == BookStep(old(View()), e, limits)
    {
      hide IsReady, HasBuffers;
      if !ValidQuote(e.bid, e.ask, e.timestamp, e.received) || e.sequence < 0 {
        return true;
      }
      raised := false;
      if status.bookSequence.Some? && e.sequence < status.bookSequence.value {
        if status.bookSequence.value - e.sequence >= limits.resyncThreshold {
          status := status.(stream := Resyncing, publicUp := false, bookSequence := None, bookTime := None);
          raised := true;
        }
        return;
      }
      if status.bookSequence == Some(e.sequence) && status.quotes.bid == Some(e.bid) && status.quotes.ask == Some(e.ask) {
        return;
      }
      status := status.(quotes := status.quotes.(bid := Some(e.bid), ask := Some(e.ask)),
                        bookSequence := Some(e.sequence), bookTime := Some(e.timestamp));
      PromoteIfReady();
    }

    /** The rows of a candle message, one after the other. */
    method ApplyCandles(e: Event) returns (raised: bool, events: seq<int>)
      requires Valid() && e.CandleRows?
      modifies this`status, BufferOf(e.timeframe)
      ensures (View(), raised) == CandleStep(old(View()), e, limits)
      ensures events == ApplyRows(old(BufferOf(e.timeframe).View()), LimitsOf(limits, e.timeframe), e.rows, e.received).events
    {
      hide IsReady, HasBuffers, Applied, ApplyRows;
      var buffer := BufferOf(e.timeframe);
      ghost var b0, l := buffer.View(), LimitsOf(limits, e.timeframe);
      raised, events := false, [];
      ghost var gap := false;
      NoRows(b0, l, e.received);
      for i := 0 to |e.rows|
        invariant ApplyRows(b0, l, e.rows[..i], e.received) == RowsResult(buffer.View(), gap, events, false)
        invariant status == if gap then old(status).(stream := Stale) else old(status)
        invariant forall tf: Timeframe :: tf != e.timeframe ==> BufferOf(tf).View() == old(BufferOf(tf).View())
      {
        assert e.rows[..i + 1][..i] == e.rows[..i];
        NextRow(b0, l, e.rows[..i + 1], e.received);
        if IsBadRow(e.rows[i], e.received) {
          RaisedStays(b0, l, e.rows, e.received, i + 1);
          raised := true;
          OneBufferChanged(old(View()), View(), e.timeframe);
          return;
        }
        var u := buffer.Apply(e.rows[i].candle);
        if u.missing != 0 {
          status := status.(stream := Stale);
          gap := true;
        }
        if u.event {
          events := events + [e.rows[i].candle.timestamp];
        }
      }
      assert e.rows[..|e.rows|] == e.rows;
      OneBufferChanged(old(View()), View(), e.timeframe);
      PromoteIfReady();
    }

    /** One timeframe of a symbol bootstrap. */
    method BootstrapTimeframe(e: Event, tf: Timeframe) returns (raised: bool)
      requires Valid() && e.Bootstraps? && tf in e.histories
      modifies BufferOf(tf)
      ensures (View(), raised) == BootstrapOne(old(View()), limits, e, tf)
    {
      hide Bootstrapped, HasBuffers;
      var buffer := BufferOf(tf);
      BootstrapIsNonEmpty(LimitsOf(limits, tf), e.histories[tf]);
      var error := buffer.Bootstrap(e.histories[tf]);
      if error.Some? {
        return true;
      }
      OneBufferChanged(old(View()), View(), tf);
      var newest := buffer.NewestBar();
      raised := newest > e.now + FUTURE_TOLERANCE_MS;
    }

    /** `bootstrap_symbol`: the buffers in turn, and then a symbol that waits for its next book. */
    method BootstrapSymbol(e: Event) returns (raised: bool)
      requires Valid() && e.Bootstraps? && HasHistories(e)
      modifies this`status, one, three, five
      ensures (View(), raised) == BootstrapStep(old(View()), e, limits)
    {
      hide BootstrapOne, HasBuffers;
      raised := BootstrapTimeframe(e, OneMinute);
      if raised {
        return;
      }
      raised := BootstrapTimeframe(e, ThreeMinutes);
      if raised {
        return;
      }
      raised := BootstrapTimeframe(e, FiveMinutes);
      if raised {
        return;
      }
      status := status.(instrument := Some(e.instrument), bookSequence := None, bookTime := None, stream := Resyncing);
    }

    /** The freshness of one timeframe. */
    method CheckFresh(tf: Timeframe, now: int) returns (current: bool)
      ensures current == IsFresh(BufferOf(tf).View(), tf, limits, now)
    {
      var last := BufferOf(tf).LastConfirmed();
      current := last.Some? && now - (last.value + IntervalOf(tf)) <= IntervalOf(tf) + limits.staleAfter;
    }

    method Watchdog(now: int)
      modifies this`status
      ensures View() == WatchStep(old(View()), limits, now)
    {
      hide IsFresh;
      var a := CheckFresh(OneMinute, now);
      var b := CheckFresh(ThreeMinutes, now);
      var c := CheckFresh(FiveMinutes, now);
      var valid := status.stream.Connected? && status.exchangeTime.Some? && status.bookTime.Some? && a && b && c;
      if !valid && !status.stream.Disconnected? {
        status := status.(stream := Stale);
      }
    }

    /** `assert_entry_ready`, when nothing comes between the watchdog and the check. */
    method AssertEntryReady(now: int) returns (ok: bool)
      modifies this`status
      ensures View() == WatchStep(old(View()), limits, now)
      ensures ok <==> View().status.stream.Connected?
      ensures ok ==> View() == old(View()) && status.bookTime.Some? && AllFresh(View(), limits, now)
    {
      hide AllFresh, IsFresh;
      Watchdog(now);
      ok := status.stream.Connected?;
    }

    /** The connection marks and the seed of a reconnect. */
    method Mark(e: Event) returns (raised: bool)
      requires e.Seeds? || e.MarksResyncing? || e.MarksDisconnected? || e.MarksConnected?
      requires Valid()
      modifies this`status
      ensures (View(), raised) == Handled(old(View()), e, limits)
    {
      hide IsReady, HasBuffers;
      raised := false;
      match e {
        case Seeds(price, bid, ask, timestamp, received) =>
          raised := price <= 0.0 || !ValidQuote(bid, ask, timestamp, received);
          if !raised {
            status := status.(quotes := Quotes(Some(price), Some(bid), Some(ask)), exchangeTime := Some(timestamp));
          }
        case MarksResyncing =>
          status := status.(stream := Resyncing, publicUp := false, businessUp := false);
        case MarksDisconnected(lost) =>
          status := status.(stream := Disconnected, publicUp := status.publicUp && lost == Some(Business),
                            businessUp := status.businessUp && lost == Some(Public));
        case MarksConnected(endpoint) =>
          status := status.(publicUp := status.publicUp || endpoint.Public?, businessUp := status.businessUp || endpoint.Business?);
          PromoteIfReady();
        case _ =>
      }
    }
  }

  lemma NoRows(b: Buffer, l: BufferLimits, received: int)
    requires ValidLimits(l)
    ensures ApplyRows(b, l, [], received) == RowsResult(b, false, [], false)
  {
  }

  lemma NextRow(b: Buffer, l: BufferLimits, rows: seq<Row>, received: int)
    requires ValidLimits(l) && rows != []
    ensures var before := ApplyRows(b, l, rows[..|rows| - 1], received);
            var row := rows[|rows| - 1];
            ApplyRows(b, l, rows, received) ==
              if before.raised || IsBadRow(row, received) then before.(raised := true)
              else
                var (after, u) := Applied(before.buffer, l, row.candle);
                RowsResult(after, before.gap || u.missing != 0,
                           if u.event then before.events + [row.candle.timestamp] else before.events, false)
  {
  }

  lemma OneBufferChanged(f: Feed, f': Feed, tf: Timeframe)
    requires HasBuffers(f) && HasBuffers(f') && forall o: Timeframe :: o != tf ==> f'.buffers[o] == f.buffers[o]
    ensures f'.buffers == f.buffers[tf := f'.buffers[tf]]
  {
  }

  /** Once a row was bad the rest of the message is not read. */
  lemma {:induction false} RaisedStays(b: Buffer, l: BufferLimits, rows: seq<Row>, received: int, i: nat)
    requires ValidLimits(l) && i <= |rows| && ApplyRows(b, l, rows[..i], received).raised
    ensures ApplyRows(b, l, rows, received) == ApplyRows(b, l, rows[..i], received)
    decreases |rows|
  {
    if i == |rows| {
      assert rows[..i] == rows;
    } else {
      var prefix := rows[..|rows| - 1];
      assert prefix[..i] == rows[..i];
      RaisedStays(b, l, prefix, received, i);
    }
  }
}
