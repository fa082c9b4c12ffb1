/** Exit fills read back from the exchange: pages of a fill history, resumed from a cursor, merged
    into a ledger. Passes may overlap, may be incomplete, and the process may die between the
    ledger write and the cursor write. */
module ExitHistory {
  import opened Wrappers

  const MAX_FILL_PAGES: nat := 20
  const RECENT_FILL_WINDOW_MS := 259_200_000      // three days
  const ARCHIVE_FILL_WINDOW_MS := 7_776_000_000   // ninety days

  /** One fill. `key` is its identity and `cursor` the id the exchange pages by, if it has one. */
  datatype HistoryRow = HistoryRow(
    key: string, cursor: Option<string>, orderId: string, sell: bool, timestamp: int, quantity: nat)

  ghost predicate DistinctKeys(rows: seq<HistoryRow>) {
    forall i, j :: 0 <= i < j < |rows| ==> rows[i].key != rows[j].key
  }

  ghost predicate DistinctCursors(rows: seq<HistoryRow>) {
    forall i, j :: 0 <= i < j < |rows| && rows[i].cursor.Some? ==> rows[i].cursor != rows[j].cursor
  }

  /** What the exchange lists for one query, newest first. */
  predicate Listed(r: HistoryRow, orderId: Option<string>, begin: Option<int>) {
    && (orderId.Some? ==> r.orderId == orderId.value)
    && (begin.Some? ==> begin.value <= r.timestamp)
  }

  lemma ListedMeans(r: HistoryRow, orderId: Option<string>, begin: Option<int>)
    ensures Listed(r, orderId, begin) <==>
      && (match orderId case None => true case Some(id) => id == r.orderId)
      && (match begin case None => true case Some(b) => r.timestamp >= b)
  {
  }

  function Query(visible: seq<HistoryRow>, orderId: Option<string>, begin: Option<int>): (rows: seq<HistoryRow>)
    ensures forall r :: r in rows <==> r in visible && Listed(r, orderId, begin)
  {
    if visible == [] then []
    else
      var rest := Query(visible[1..], orderId, begin);
      if Listed(visible[0], orderId, begin) then [visible[0]] + rest else rest
  }

  lemma {:induction false} QueryDistinct(visible: seq<HistoryRow>, orderId: Option<string>, begin: Option<int>)
    requires DistinctKeys(visible) && DistinctCursors(visible)
    ensures DistinctKeys(Query(visible, orderId, begin)) && DistinctCursors(Query(visible, orderId, begin))
  {
    if visible != [] {
      QueryDistinct(visible[1..], orderId, begin);
      var rest := Query(visible[1..], orderId, begin);
      forall i | 0 <= i < |rest|
        ensures rest[i].key != visible[0].key
        ensures visible[0].cursor.Some? ==> rest[i].cursor != visible[0].cursor
      {
        assert rest[i] in rest;
        var j :| 0 <= j < |visible[1..]| && visible[1..][j] == rest[i];
        assert visible[j + 1] == rest[i];
      }
    }
  }

  /** The position after the row with cursor `c`. */
  function After(rows: seq<HistoryRow>, c: string): (i: nat)
    ensures i <= |rows|
  {
    if rows == [] then 0
    else if rows[0].cursor == Some(c) then 1
    else 1 + After(rows[1..], c)
  }

  lemma {:induction false} AfterFinds(rows: seq<HistoryRow>, i: nat)
    requires DistinctCursors(rows) && i < |rows| && rows[i].cursor.Some?
    ensures After(rows, rows[i].cursor.value) == i + 1
    decreases i
  {
    if i > 0 {
      assert rows[0].cursor != rows[i].cursor;
      AfterFinds(rows[1..], i - 1);
    }
  }

  /** One page of the exchange: at most `limit` rows older than the cursor. */
  function Page(rows: seq<HistoryRow>, after: Option<string>, limit: nat): seq<HistoryRow> {
    var start := if after.Some? then After(rows, after.value) else 0;
    rows[start..if start + limit <= |rows| then start + limit else |rows|]
  }

  /** A page asked for with the cursor of the last row read goes on where reading stopped. */
  lemma PageGoesOn(rows: seq<HistoryRow>, after: Option<string>, limit: nat, done: nat)
    requires DistinctCursors(rows) && done <= |rows|
    requires done == 0 ==> after.None?
    requires done > 0 ==> after.Some? && after == rows[done - 1].cursor
    ensures Page(rows, after, limit) == rows[done..if done + limit <= |rows| then done + limit else |rows|]
  {
    if done > 0 {
      AfterFinds(rows, done - 1);
    }
  }

  /** Whether `pages` pages reach the end: a short page comes before they run out, and every full
      page before it ends in a row with a cursor. */
  predicate Reaches(rows: seq<HistoryRow>, limit: nat, paginated: bool, pages: nat)
    requires limit > 0
    decreases pages
  {
    pages > 0 &&
    (|rows| < limit ||
     (paginated && rows[limit - 1].cursor.Some? && Reaches(rows[limit..], limit, paginated, pages - 1)))
  }

  /** When every row has a cursor, exactly the histories shorter than all pages are complete. */
  lemma {:induction false} ReachesIffShort(rows: seq<HistoryRow>, limit: nat, pages: nat)
    requires limit > 0
    requires forall r :: r in rows ==> r.cursor.Some?
    ensures Reaches(rows, limit, true, pages) <==> |rows| < pages * limit
    decreases pages
  {
    if pages > 0 {
      assert pages * limit == (pages - 1) * limit + limit;
      assert 0 <= (pages - 1) * limit;
      if |rows| >= limit {
        ReachesIffShort(rows[limit..], limit, pages - 1);
      }
    }
  }

  /** Every cursor in `seen` belongs to one of the first `done` rows. */
  ghost predicate ReadBefore(rows: seq<HistoryRow>, seen: set<string>, done: nat)
    requires done <= |rows|
  {
    forall c :: c in seen ==> exists i :: 0 <= i < done && rows[i].cursor == Some(c)
  }

  lemma ReadOneMore(rows: seq<HistoryRow>, seen: set<string>, done: nat, done': nat)
    requires done < done' <= |rows| && rows[done' - 1].cursor.Some?
    requires ReadBefore(rows, seen, done)
    ensures ReadBefore(rows, seen + {rows[done' - 1].cursor.value}, done')
  {
    forall c | c in seen + {rows[done' - 1].cursor.value}
      ensures exists i :: 0 <= i < done' && rows[i].cursor == Some(c)
    {
      if c in seen {
        var i :| 0 <= i < done && rows[i].cursor == Some(c);
      } else {
        assert rows[done' - 1].cursor == Some(c);
      }
    }
  }

  /** The dictionary holds rows of the history under their keys, among them the first `done`. */
  ghost predicate Covers(rows: seq<HistoryRow>, unique: map<string, HistoryRow>, done: nat)
    requires done <= |rows|
  {
    && (forall k :: k in unique ==> unique[k] in rows && unique[k].key == k)
    && (forall i :: 0 <= i < done ==> rows[i].key in unique)
  }

  lemma AddsPage(rows: seq<HistoryRow>, unique: map<string, HistoryRow>, got: seq<HistoryRow>, done: nat)
    requires done + |got| <= |rows| && got == rows[done..done + |got|]
    requires Covers(rows, unique, done)
    ensures Covers(rows, AddNew(unique, got), done + |got|)
  {
    forall i | 0 <= i < done + |got| ensures rows[i].key in AddNew(unique, got) {
      if i >= done {
        assert rows[i] == got[i - done];
      }
    }
  }

  lemma Collected(rows: seq<HistoryRow>, unique: map<string, HistoryRow>, done: nat)
    requires done <= |rows| && Covers(rows, unique, done)
    ensures forall k :: k in unique ==> unique[k] in rows && unique[k].key == k
  {
  }

  lemma StartsEmpty(rows: seq<HistoryRow>)
    ensures ReadBefore(rows, {}, 0) && Covers(rows, map[], 0)
  {
  }

  lemma ReachesUnfold(rows: seq<HistoryRow>, done: nat, limit: nat, paginated: bool, pages: nat)
    requires limit > 0 && done <= |rows| && pages > 0
    ensures |rows| - done < limit ==> Reaches(rows[done..], limit, paginated, pages)
    ensures |rows| - done >= limit ==>
              (Reaches(rows[done..], limit, paginated, pages) <==>
                 paginated && rows[done + limit - 1].cursor.Some? &&
                 Reaches(rows[done + limit..], limit, paginated, pages - 1))
  {
    if |rows| - done >= limit {
      assert rows[done..][limit..] == rows[done + limit..];
    }
  }

  /** A cursor read for the first time is not among those of the earlier rows. */
  lemma CursorIsNew(rows: seq<HistoryRow>, seen: set<string>, done: nat, last: nat)
    requires DistinctCursors(rows) && done <= last < |rows| && rows[last].cursor.Some?
    requires ReadBefore(rows, seen, done)
    ensures rows[last].cursor.value !in seen
  {
  }

  /** Where the paging stands after `page` pages: `done` rows were read, `after` is the cursor of
      the last of them, and what is left to reach needs the pages that are left. */
  ghost predicate Stands(rows: seq<HistoryRow>, limit: nat, paginated: bool, page: nat, done: nat,
                         after: Option<string>, seen: set<string>, unique: map<string, HistoryRow>)
    requires limit > 0
  {
    && page <= MAX_FILL_PAGES && done <= |rows|
    && (done == 0 ==> after.None?)
    && (done > 0 ==> after.Some? && after == rows[done - 1].cursor)
    && ReadBefore(rows, seen, done) && Covers(rows, unique, done)
    && (Reaches(rows, limit, paginated, MAX_FILL_PAGES) <==> Reaches(rows[done..], limit, paginated, MAX_FILL_PAGES - page))
  }

  /** The page that was asked for, and the last cursor of a full one. */
  lemma PageStands(rows: seq<HistoryRow>, limit: nat, paginated: bool, page: nat, done: nat,
                   after: Option<string>, seen: set<string>, unique: map<string, HistoryRow>)
    requires limit > 0 && DistinctCursors(rows) && Stands(rows, limit, paginated, page, done, after, seen, unique)
    ensures var got := Page(rows, after, limit);
            && done + |got| <= |rows| && got == rows[done..done + |got|] && |got| <= limit
            && Covers(rows, AddNew(unique, got), done + |got|)
            && (|got| < limit ==> done + |got| == |rows|)
            && (|got| == limit && got[limit - 1].cursor.Some? ==> got[limit - 1].cursor.value !in seen)
  {
    hide Page, DistinctCursors, ReadBefore, Covers, AddNew, Reaches, After;
    PageGoesOn(rows, after, limit, done);
    var got := Page(rows, after, limit);
    AddsPage(rows, unique, got, done);
    if |got| == limit && got[limit - 1].cursor.Some? {
      assert got[limit - 1] == rows[done + limit - 1];
      CursorIsNew(rows, seen, done, done + limit - 1);
    }
  }

  /** A short page is the end, a full page that cannot be followed is not, and any other goes on. */
  lemma PageDecides(rows: seq<HistoryRow>, limit: nat, paginated: bool, page: nat, done: nat,
                    after: Option<string>, seen: set<string>, unique: map<string, HistoryRow>)
    requires limit > 0 && DistinctCursors(rows) && Stands(rows, limit, paginated, page, done, after, seen, unique)
    requires page < MAX_FILL_PAGES
    ensures var got := Page(rows, after, limit);
            var cursor := if |got| == limit then got[limit - 1].cursor else None;
            && |got| <= limit
            && (|got| < limit ==> Reaches(rows, limit, paginated, MAX_FILL_PAGES))
            && (|got| == limit && (!paginated || cursor.None?) ==> !Reaches(rows, limit, paginated, MAX_FILL_PAGES))
            && (|got| == limit && paginated && cursor.Some? ==>
                  && cursor.value !in seen
                  && Stands(rows, limit, paginated, page + 1, done + limit, cursor, seen + {cursor.value}, AddNew(unique, got)))
  {
    hide Page, DistinctCursors, ReadBefore, Covers, AddNew, Reaches, After;
    PageStands(rows, limit, paginated, page, done, after, seen, unique);
    ReachesUnfold(rows, done, limit, paginated, MAX_FILL_PAGES - page);
    var got := Page(rows, after, limit);
    if |got| == limit {
      assert got[limit - 1] == rows[done + limit - 1];
      if got[limit - 1].cursor.Some? {
        ReadOneMore(rows, seen, done, done + limit);
      }
    }
  }

  /** `_fill_pages`: complete exactly when the pages reach the end, and then every row is there. */
  method FillPages(rows: seq<HistoryRow>, limit: nat, paginated: bool)
    returns (unique: map<string, HistoryRow>, complete: bool)
    requires limit > 0 && DistinctKeys(rows) && DistinctCursors(rows)
    ensures forall k :: k in unique ==> unique[k] in rows && unique[k].key == k
    ensures complete <==> Reaches(rows, limit, paginated, MAX_FILL_PAGES)
    ensures complete ==> forall r :: r in rows ==> r.key in unique && unique[r.key] == r
  {
    hide Page, Reaches, DistinctCursors, DistinctKeys, Covers, AddNew, Stands;
    unique := map[];
    var after: Option<string> := None;
    var seen: set<string> := {};
    ghost var done := 0;
    StandsAtStart(rows, limit, paginated);
    for page := 0 to MAX_FILL_PAGES
      invariant Stands(rows, limit, paginated, page, done, after, seen, unique)
    {
      PageStands(rows, limit, paginated, page, done, after, seen, unique);
      PageDecides(rows, limit, paginated, page, done, after, seen, unique);
      var got := Page(rows, after, limit);
      unique := AddNew(unique, got);
      Collected(rows, unique, done + |got|);
      if |got| < limit {
        complete := true;
        AllThere(rows, unique);
        return;
      }
      var cursor := got[|got| - 1].cursor;
      if !paginated || cursor.None? || cursor.value in seen {
        complete := false;
        return;
      }
      seen := seen + {cursor.value};
      after := cursor;
      done := done + limit;
    }
    complete := false;
    StandsAtEnd(rows, limit, paginated, done, after, seen, unique);
  }

  lemma StandsAtStart(rows: seq<HistoryRow>, limit: nat, paginated: bool)
    requires limit > 0
    ensures Stands(rows, limit, paginated, 0, 0, None, {}, map[])
  {
    StartsEmpty(rows);
    assert rows[0..] == rows;
  }

  lemma StandsAtEnd(rows: seq<HistoryRow>, limit: nat, paginated: bool, done: nat,
                    after: Option<string>, seen: set<string>, unique: map<string, HistoryRow>)
    requires limit > 0 && Stands(rows, limit, paginated, MAX_FILL_PAGES, done, after, seen, unique)
    ensures !Reaches(rows, limit, paginated, MAX_FILL_PAGES)
    ensures forall k :: k in unique ==> unique[k] in rows && unique[k].key == k
  {
    hide ReadBefore, DistinctKeys;
    ReachesNothing(rows[done..], limit, paginated);
    Collected(rows, unique, done);
  }

  lemma ReachesNothing(rows: seq<HistoryRow>, limit: nat, paginated: bool)
    requires limit > 0
    ensures !Reaches(rows, limit, paginated, 0)
  {
  }

  /** A key in the dictionary stands for the one row that has it. */
  lemma AllThere(rows: seq<HistoryRow>, unique: map<string, HistoryRow>)
    requires DistinctKeys(rows) && Covers(rows, unique, |rows|)
    ensures forall r :: r in rows ==> r.key in unique && unique[r.key] == r
  {
    forall r | r in rows ensures r.key in unique && unique[r.key] == r {
      var i :| 0 <= i < |rows| && rows[i] == r;
      var j :| 0 <= j < |rows| && rows[j] == unique[rows[i].key];
      assert i == j;
    }
  }

  /** setdefault of each row under its key. */
  function AddNew(m: map<string, HistoryRow>, rows: seq<HistoryRow>): (m': map<string, HistoryRow>)
    ensures m.Keys <= m'.Keys
    ensures forall k :: k in m ==> m'[k] == m[k]
    ensures forall k :: k in m' && k !in m ==> m'[k] in rows && m'[k].key == k
    ensures forall i :: 0 <= i < |rows| ==> rows[i].key in m'
    decreases |rows|
  {
    if rows == [] then m
    else AddNew(if rows[0].key in m then m else m[rows[0].key := rows[0]], rows[1..])
  }

  datatype Capabilities = Capabilities(timeWindow: bool, pagination: bool, orderLookup: bool, archive: bool)

  predicate Matches(r: HistoryRow, ids: seq<string>) {
    r.sell && r.orderId in ids
  }

  /** Where the window of a query starts, if the exchange takes one. */
  function From(cap: Capabilities, begin: int): Option<int> {
    if cap.timeWindow then Some(begin) else None
  }

  /** Fills from `begin` on are no longer among the recent ones. */
  predicate NeedsArchive(begin: int, now: int) {
    now - begin > RECENT_FILL_WINDOW_MS
  }

  function PageLimit(begin: int, now: int): nat {
    if NeedsArchive(begin, now) then 20 else 100
  }

  /** The backend can be asked for everything from `begin` on. */
  predicate CanRead(begin: int, now: int, cap: Capabilities) {
    && now - begin <= ARCHIVE_FILL_WINDOW_MS
    && (NeedsArchive(begin, now) ==> cap.archive)
    && (cap.orderLookup || cap.pagination)
  }

  /** A pass reads back at most ninety days; beyond three days it needs the archive, whose pages are shorter. */
  lemma WindowMeans(begin: int, now: int, cap: Capabilities)
    ensures var recent, kept := 3 * 24 * 60 * 60 * 1000, 90 * 24 * 60 * 60 * 1000;
      && PageLimit(begin, now) == (if begin < now - recent then 20 else 100)
      && (CanRead(begin, now, cap) <==>
            now - kept <= begin && (now - recent <= begin || cap.archive) && (cap.orderLookup || cap.pagination))
  {
  }

  /** The pass may be made, and the pages of every one of its scans reach the end. */
  ghost predicate PassReaches(visible: seq<HistoryRow>, ids: seq<string>, begin: int, cap: Capabilities, now: int) {
    && CanRead(begin, now, cap)
    && if cap.orderLookup then
         forall i :: 0 <= i < |ids| ==>
           Reaches(Query(visible, Some(ids[i]), From(cap, begin)), PageLimit(begin, now), cap.pagination, MAX_FILL_PAGES)
       else Reaches(Query(visible, None, From(cap, begin)), PageLimit(begin, now), true, MAX_FILL_PAGES)
  }

  /** One scan per protective order: complete when every one of them is. */
  method ScanByOrder(visible: seq<HistoryRow>, ids: seq<string>, from: Option<int>, limit: nat, paginated: bool)
    returns (rows: map<string, HistoryRow>, complete: bool)
    requires limit > 0 && DistinctKeys(visible) && DistinctCursors(visible)
    ensures forall k :: k in rows ==> rows[k] in visible && rows[k].key == k && Listed(rows[k], None, from)
    ensures complete <==>
      forall i :: 0 <= i < |ids| ==> Reaches(Query(visible, Some(ids[i]), from), limit, paginated, MAX_FILL_PAGES)
    ensures complete ==> forall r :: r in visible && r.orderId in ids && Listed(r, None, from) ==>
      r.key in rows && rows[r.key] == r
  {
    hide Reaches, Query, DistinctKeys, DistinctCursors;
    rows, complete := map[], true;
    for i := 0 to |ids|
      invariant forall k :: k in rows ==> rows[k] in visible && rows[k].key == k && Listed(rows[k], None, from)
      invariant complete <==>
        forall j :: 0 <= j < i ==> Reaches(Query(visible, Some(ids[j]), from), limit, paginated, MAX_FILL_PAGES)
      invariant complete ==> forall r :: r in visible && r.orderId in ids[..i] && Listed(r, None, from) ==>
        r.key in rows && rows[r.key] == r
    {
      QueryDistinct(visible, Some(ids[i]), from);
      var found, whole := FillPages(Query(visible, Some(ids[i]), from), limit, paginated);
      SameKeySameRow(visible, rows, found);
      rows := rows + found;
      complete := complete && whole;
      assert ids[..i + 1] == ids[..i] + [ids[i]];
    }
    assert ids[..|ids|] == ids;
  }

  /** `_load_exit_fills`: one scan per protective order when the exchange can look orders up, one
      scan of everything otherwise; then only the sells of the protective orders are kept. */
  method LoadExitFills(visible: seq<HistoryRow>, ids: seq<string>, begin: int, cap: Capabilities, now: int)
    returns (matching: map<string, HistoryRow>, complete: bool)
    requires DistinctKeys(visible) && DistinctCursors(visible)
    ensures forall k :: k in matching ==>
      matching[k] in visible && matching[k].key == k && Matches(matching[k], ids)
    ensures complete <==> PassReaches(visible, ids, begin, cap, now)
    ensures complete ==> forall r :: r in visible && Matches(r, ids) && begin <= r.timestamp ==>
      r.key in matching && matching[r.key] == r
    ensures cap.timeWindow ==> forall k :: k in matching ==> begin <= matching[k].timestamp
  {
    hide Reaches;
    var from := From(cap, begin);
    var limit := PageLimit(begin, now);
    if !CanRead(begin, now, cap) {
      return map[], false;
    }
    var rows: map<string, HistoryRow>;
    if cap.orderLookup {
      rows, complete := ScanByOrder(visible, ids, from, limit, cap.pagination);
    } else {
      QueryDistinct(visible, None, from);
      rows, complete := FillPages(Query(visible, None, from), limit, cap.pagination);
    }
    matching := map k | k in rows && Matches(rows[k], ids) :: rows[k];
  }

  lemma SameKeySameRow(visible: seq<HistoryRow>, a: map<string, HistoryRow>, b: map<string, HistoryRow>)
    requires DistinctKeys(visible)
    requires forall k :: k in a ==> a[k] in visible && a[k].key == k
    requires forall k :: k in b ==> b[k] in visible && b[k].key == k
    ensures forall k :: k in a && k in b ==> a[k] == b[k]
  {
    forall k | k in a && k in b ensures a[k] == b[k] {
      var i :| 0 <= i < |visible| && visible[i] == a[k];
      var j :| 0 <= j < |visible| && visible[j] == b[k];
      assert i == j;
    }
  }

  // ----- the ledger and its cursor -----

  /** The ledger holds exactly the matching fills from `from` on, each under its own key. */
  ghost predicate Exactly(ledger: map<string, HistoryRow>, visible: seq<HistoryRow>, ids: seq<string>, from: int) {
    && (forall k :: k in ledger ==> Sound(ledger, k, visible, ids))
    && (forall r :: r in visible && Matches(r, ids) && from <= r.timestamp ==> Holds(ledger, r))
  }

  predicate Holds(ledger: map<string, HistoryRow>, r: HistoryRow) {
    r.key in ledger && ledger[r.key] == r
  }

  predicate Sound(ledger: map<string, HistoryRow>, k: string, visible: seq<HistoryRow>, ids: seq<string>)
    requires k in ledger
  {
    ledger[k] in visible && ledger[k].key == k && Matches(ledger[k], ids)
  }

  /** Between passes: the ledger is sound, and complete below the point the next pass resumes at;
      that point is never later than the newest fill the ledger holds. */
  ghost predicate Resumable(
    ledger: map<string, HistoryRow>, cursor: Option<int>, openedAt: int, visible: seq<HistoryRow>, ids: seq<string>)
  {
    && (forall k :: k in ledger ==> Sound(ledger, k, visible, ids))
    && (forall r :: r in visible && Matches(r, ids) && openedAt <= r.timestamp < Begin(cursor, openedAt) ==> Holds(ledger, r))
    && (cursor.Some? && cursor.value > openedAt ==>
          exists k :: k in ledger && ledger[k].timestamp >= cursor.value)
  }

  /** Where a pass starts to read: the cursor, but not before the position was opened. */
  function Begin(cursor: Option<int>, openedAt: int): int {
    if cursor.Some? && cursor.value > openedAt then cursor.value else openedAt
  }

  /** Fills become visible in order: what appears later is not older than any matching fill that
      was visible before, and what was visible stays. */
  ghost predicate InOrder(before: seq<HistoryRow>, after: seq<HistoryRow>, ids: seq<string>) {
    && (forall r :: r in before ==> r in after)
    && (forall r, q :: r in after && r !in before && Matches(r, ids) && q in before && Matches(q, ids) ==>
          q.timestamp <= r.timestamp)
  }

  lemma VisibilityKeepsResumable(
    ledger: map<string, HistoryRow>, cursor: Option<int>, openedAt: int,
    before: seq<HistoryRow>, after: seq<HistoryRow>, ids: seq<string>)
    requires Resumable(ledger, cursor, openedAt, before, ids) && InOrder(before, after, ids)
    ensures Resumable(ledger, cursor, openedAt, after, ids)
  {
    forall k | k in ledger ensures Sound(ledger, k, after, ids) {
      assert Sound(ledger, k, before, ids);
    }
    forall r | r in after && Matches(r, ids) && openedAt <= r.timestamp < Begin(cursor, openedAt)
      ensures Holds(ledger, r)
    {
    }
  }

  predicate NoneBefore(ledger: map<string, HistoryRow>, t: int) {
    forall k | k in ledger :: t <= ledger[k].timestamp
  }

  datatype PassEnd = PassIncomplete | DiedBeforeCursor | PassComplete

  class ExitLedger {
    var ledger: map<string, HistoryRow>
    var cursor: Option<int>
    const openedAt: int
    const ids: seq<string>

    constructor (openedAt: int, ids: seq<string>)
      ensures this.openedAt == openedAt && this.ids == ids && ledger == map[] && cursor.None?
    {
      this.openedAt, this.ids := openedAt, ids;
      ledger, cursor := map[], None;
    }

    ghost predicate ReadyFor(visible: seq<HistoryRow>)
      reads this
    {
      Resumable(ledger, cursor, openedAt, visible, ids)
    }

    lemma IsReady(visible: seq<HistoryRow>)
      requires Resumable(ledger, cursor, openedAt, visible, ids)
      ensures ReadyFor(visible)
    {
    }

    lemma WasReady(visible: seq<HistoryRow>)
      requires ReadyFor(visible)
      ensures Resumable(ledger, cursor, openedAt, visible, ids)
    {
    }

    /** One pass over what is visible now. `dies` is the process stopping after the ledger write.
        However the pass ends, the next one may resume; a complete one leaves exactly the
        matching fills since the position was opened, each once. */
    method Pass(visible: seq<HistoryRow>, cap: Capabilities, now: int, dies: bool) returns (end: PassEnd)
      requires DistinctKeys(visible) && DistinctCursors(visible)
      requires ReadyFor(visible)
      modifies this
      ensures ReadyFor(visible)
      ensures forall k :: k in old(ledger) ==> k in ledger && ledger[k] == old(ledger)[k]
      ensures end.PassIncomplete? <==> !PassReaches(visible, ids, Begin(old(cursor), openedAt), cap, now)
      ensures end.PassIncomplete? ==> ledger == old(ledger) && cursor == old(cursor)
      ensures !end.PassIncomplete? ==> Exactly(ledger, visible, ids, openedAt)
      ensures cap.timeWindow && NoneBefore(old(ledger), openedAt) ==> NoneBefore(ledger, openedAt)
    {
      hide PassReaches, Resumable, Exactly, DistinctKeys, DistinctCursors, NoneBefore;
      var begin := Begin(cursor, openedAt);
      var found, complete := LoadExitFills(visible, ids, begin, cap, now);
      if !complete {
        return PassIncomplete;
      }
      ghost var before := ledger;
      LedgerRows(ledger, cursor, openedAt, visible, ids);
      SameKeySameRow(visible, ledger, found);
      MergedNoneBefore(ledger, found, openedAt, begin);
      ledger := found + ledger; // INSERT OR IGNORE
      LedgerComplete(before, found, visible, ids, openedAt, begin, cursor);
      if dies {
        return DiedBeforeCursor;
      }
      if found != map[] {
        var newest := Newest(found);
        CursorMoves(ledger, visible, ids, openedAt, newest);
        cursor := Some(newest);
      }
      end := PassComplete;
    }
  }

  lemma LedgerRows(ledger: map<string, HistoryRow>, cursor: Option<int>, openedAt: int, visible: seq<HistoryRow>,
                   ids: seq<string>)
    requires Resumable(ledger, cursor, openedAt, visible, ids)
    ensures forall k :: k in ledger ==> ledger[k] in visible && ledger[k].key == k
    ensures Begin(cursor, openedAt) >= openedAt
  {
    forall k | k in ledger ensures ledger[k] in visible && ledger[k].key == k {
      assert Sound(ledger, k, visible, ids);
    }
  }

  lemma MergedNoneBefore(ledger: map<string, HistoryRow>, found: map<string, HistoryRow>, openedAt: int, begin: int)
    requires openedAt <= begin
    ensures NoneBefore(ledger, openedAt) && (forall k :: k in found ==> begin <= found[k].timestamp) ==>
      NoneBefore(found + ledger, openedAt)
  {
  }

  /** A complete ledger may be resumed at the time of any fill it holds. */
  lemma CursorMoves(ledger: map<string, HistoryRow>, visible: seq<HistoryRow>, ids: seq<string>, openedAt: int, newest: int)
    requires Exactly(ledger, visible, ids, openedAt)
    requires exists k :: k in ledger && ledger[k].timestamp == newest
    ensures Resumable(ledger, Some(newest), openedAt, visible, ids)
  {
    hide Sound;
  }

  method Newest(m: map<string, HistoryRow>) returns (t: int)
    requires m != map[]
    ensures exists k :: k in m && m[k].timestamp == t
    ensures forall k :: k in m ==> m[k].timestamp <= t
  {
    var first :| first in m;
    t := m[first].timestamp;
    var rest := m.Keys - {first};
    while rest != {}
      invariant rest <= m.Keys
      invariant exists k :: k in m && m[k].timestamp == t
      invariant forall k :: k in m && k !in rest ==> m[k].timestamp <= t
      decreases |rest|
    {
      var k :| k in rest;
      if m[k].timestamp > t {
        t := m[k].timestamp;
      }
      rest := rest - {k};
    }
  }

  lemma LedgerComplete(
    before: map<string, HistoryRow>, found: map<string, HistoryRow>, visible: seq<HistoryRow>, ids: seq<string>,
    openedAt: int, begin: int, cursor: Option<int>)
    requires Resumable(before, cursor, openedAt, visible, ids) && begin == Begin(cursor, openedAt)
    requires forall k :: k in found ==> found[k] in visible && found[k].key == k && Matches(found[k], ids)
    requires forall r :: r in visible && Matches(r, ids) && begin <= r.timestamp ==> r.key in found && found[r.key] == r
    requires forall k :: k in before && k in found ==> before[k] == found[k]
    ensures var after := found + before;
            Exactly(after, visible, ids, openedAt) && Resumable(after, cursor, openedAt, visible, ids)
  {
    var after := found + before;
    forall k | k in after ensures Sound(after, k, visible, ids) {
      if k in before {
        assert Sound(before, k, visible, ids);
      }
    }
    forall r | r in visible && Matches(r, ids) && openedAt <= r.timestamp ensures Holds(after, r) {
      if r.timestamp < begin {
        assert Holds(before, r);
      }
    }
    if cursor.Some? && cursor.value > openedAt {
      var k :| k in before && before[k].timestamp >= cursor.value;
      assert k in after && after[k].timestamp >= cursor.value;
    }
  }

  /** Two ledgers that hold exactly the same matching fills are equal: the resumed passes leave what
      one full scan leaves. */
  lemma ExactlyIsOne(a: map<string, HistoryRow>, b: map<string, HistoryRow>, visible: seq<HistoryRow>,
                     ids: seq<string>, openedAt: int)
    requires Exactly(a, visible, ids, openedAt) && Exactly(b, visible, ids, openedAt)
    requires forall r :: r in visible && Matches(r, ids) ==> openedAt <= r.timestamp
    ensures a == b
  {
    forall k | k in a ensures k in b && b[k] == a[k] {
      assert Sound(a, k, visible, ids);
      assert Holds(b, a[k]);
    }
    forall k | k in b ensures k in a {
      assert Sound(b, k, visible, ids);
      assert Holds(a, b[k]);
    }
    assert a.Keys == b.Keys;
  }

  /** A time window starts at the local time the position was recorded. The ledger then holds every
      matching fill exactly when none of them is older than that. */
  lemma WindowMissesOnlyEarlierFills(ledger: map<string, HistoryRow>, visible: seq<HistoryRow>, ids: seq<string>,
                                     openedAt: int)
    requires Exactly(ledger, visible, ids, openedAt) && NoneBefore(ledger, openedAt)
    ensures HoldsAll(ledger, visible, ids) <==> NoneOlder(visible, ids, openedAt)
  {
    if HoldsAll(ledger, visible, ids) {
      forall r | r in visible && Matches(r, ids) ensures openedAt <= r.timestamp {
        assert Holds(ledger, r);
      }
    }
  }

  /** The ledger holds every matching fill. */
  ghost predicate HoldsAll(ledger: map<string, HistoryRow>, visible: seq<HistoryRow>, ids: seq<string>) {
    forall r :: r in visible && Matches(r, ids) ==> Holds(ledger, r)
  }

  /** No matching fill is older than `t`. */
  ghost predicate NoneOlder(visible: seq<HistoryRow>, ids: seq<string>, t: int) {
    forall r :: r in visible && Matches(r, ids) ==> t <= r.timestamp
  }

  ghost predicate AllWindowed(caps: seq<Capabilities>) {
    forall i :: 0 <= i < |caps| ==> caps[i].timeWindow
  }

  lemma Windowed(caps: seq<Capabilities>, i: nat)
    requires i < |caps|
    ensures AllWindowed(caps) ==> caps[i].timeWindow
  {
  }

  lemma NothingBefore(openedAt: int)
    ensures NoneBefore(map[], openedAt)
  {
  }

  /** The protective order filled at 5, and the position was recorded at 10: a complete pass does not see
      the fill. */
  method FillIsMissed() returns (r: HistoryRow, l: ExitLedger, end: PassEnd)
    ensures Matches(r, l.ids) && !end.PassIncomplete? && l.ledger == map[]
  {
    hide Resumable;
    r := HistoryRow("f", Some("1"), "tp", true, 5, 1);
    l := new ExitLedger(10, ["tp"]);
    StartsResumable(10, [r], ["tp"]);
    l.IsReady([r]);
    var cap := Capabilities(true, true, false, false);
    NoPages(r, cap);
    end := l.Pass([r], cap, 1_000, false);
    OnlyRow(r, l.ledger);
  }

  lemma NoPages(r: HistoryRow, cap: Capabilities)
    requires r.timestamp == 5 && cap == Capabilities(true, true, false, false)
    ensures PassReaches([r], ["tp"], 10, cap, 1_000)
  {
  }

  lemma OnlyRow(r: HistoryRow, ledger: map<string, HistoryRow>)
    requires r.timestamp == 5 && Exactly(ledger, [r], ["tp"], 10) && NoneBefore(ledger, 10)
    ensures ledger == map[]
  {
    OnlyThatRow(r, ledger);
    assert ledger.Keys == {};
  }

  lemma OnlyThatRow(r: HistoryRow, ledger: map<string, HistoryRow>)
    requires Exactly(ledger, [r], ["tp"], 10)
    ensures forall k :: k in ledger ==> ledger[k] == r
  {
    forall k | k in ledger ensures ledger[k] == r {
      assert Sound(ledger, k, [r], ["tp"]);
    }
  }

  /** Any number of passes over histories that become visible in order, with any capabilities
      and at any times, any of them incomplete, any of them dying before the cursor write: when the last pass got
      as far as the ledger, the ledger is what one full scan of the last history would leave. */
  method AnyPasses(openedAt: int, ids: seq<string>, histories: seq<seq<HistoryRow>>, caps: seq<Capabilities>,
                   times: seq<int>, deaths: seq<bool>)
    returns (l: ExitLedger, last: PassEnd)
    requires |caps| == |deaths| == |times| == |histories| > 0
    requires forall i :: 0 <= i < |histories| ==> DistinctKeys(histories[i]) && DistinctCursors(histories[i])
    requires forall i :: 0 <= i < |histories| - 1 ==> InOrder(histories[i], histories[i + 1], ids)
    ensures !last.PassIncomplete? ==> Exactly(l.ledger, histories[|histories| - 1], ids, openedAt)
    ensures !last.PassIncomplete? && AllWindowed(caps) ==>
      (HoldsAll(l.ledger, histories[|histories| - 1], ids) <==> NoneOlder(histories[|histories| - 1], ids, openedAt))
  {
    hide *;
    l := new ExitLedger(openedAt, ids);
    StartsResumable(openedAt, histories[0], ids);
    NothingBefore(openedAt);
    l.IsReady(histories[0]);
    last := PassIncomplete;
    for i := 0 to |histories|
      invariant l.openedAt == openedAt && l.ids == ids
      invariant i == 0 ==> l.ReadyFor(histories[0])
      invariant i > 0 ==> l.ReadyFor(histories[i - 1])
      invariant i > 0 && !last.PassIncomplete? ==> Exactly(l.ledger, histories[i - 1], ids, openedAt)
      invariant AllWindowed(caps) ==> NoneBefore(l.ledger, openedAt)
    {
      if i > 0 {
        l.WasReady(histories[i - 1]);
        VisibilityKeepsResumable(l.ledger, l.cursor, openedAt, histories[i - 1], histories[i], ids);
        l.IsReady(histories[i]);
      }
      Windowed(caps, i);
      last := l.Pass(histories[i], caps[i], times[i], deaths[i]);
    }
    if !last.PassIncomplete? && AllWindowed(caps) {
      WindowMissesOnlyEarlierFills(l.ledger, histories[|histories| - 1], ids, openedAt);
    }
  }

  lemma StartsResumable(openedAt: int, visible: seq<HistoryRow>, ids: seq<string>)
    ensures Resumable(map[], None, openedAt, visible, ids)
  {
  }
}
