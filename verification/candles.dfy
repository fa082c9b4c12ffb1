/** Candles, their time grid, and lists of them in the order of time. */
module Candles {
  datatype Candle = Candle(
    timestamp: int, open: real, high: real, low: real, close: real, volume: real, quoteVolume: real, confirmed: bool)

  predicate OnGrid(t: int, interval: int)
    requires interval > 0
  {
    t % interval == 0
  }

  lemma HasMember(s: set<int>)
    requires s != {}
    ensures exists x :: x in s
  {
    assert (forall x :: x !in s) ==> s == {};
  }

  lemma MulBound(k: int, i: int)
    requires i > 0
    ensures k >= 1 ==> k * i >= i
    ensures k <= -1 ==> k * i <= -i
    ensures k >= 2 ==> k * i >= i + i
    ensures k <= 0 ==> k * i <= 0
  {
    if k >= 2 {
      assert (k - 2) * i >= 0;
    } else if k <= -1 {
      assert (k + 1) * i <= 0;
    }
  }

  lemma QuotientOfMultiple(x: int, k: int, i: int)
    requires i > 0 && x == k * i
    ensures x / i == k
  {
    var q := x / i;
    assert x == q * i + x % i;
    assert (k - q) * i == x % i;
    MulBound(k - q, i);
  }

  /** Grid points are whole intervals apart. */
  lemma GridDistance(a: int, b: int, interval: int)
    requires interval > 0 && a < b && OnGrid(a, interval) && OnGrid(b, interval)
    ensures (b - a) / interval >= 1 && b - a == (b - a) / interval * interval
    ensures b - a <= interval ==> b - a == interval && (b - a) / interval == 1
  {
    var x, y := a / interval, b / interval;
    assert a == x * interval && b == y * interval;
    assert b - a == (y - x) * interval;
    QuotientOfMultiple(b - a, y - x, interval);
    MulBound(y - x, interval);
  }

  // ----- lists of candles -----

  function Stamps(s: seq<Candle>): set<int> {
    set i | 0 <= i < |s| :: s[i].timestamp
  }

  function ConfirmedStamps(s: seq<Candle>): set<int> {
    set i | 0 <= i < |s| && s[i].confirmed :: s[i].timestamp
  }

  /** A timestamp is listed exactly when a candle, or a confirmed one, has it. */
  lemma StampsMean(s: seq<Candle>)
    ensures forall t :: t in Stamps(s) <==> exists c :: c in s && c.timestamp == t
    ensures forall t :: t in ConfirmedStamps(s) <==> exists c :: c in s && c.confirmed && c.timestamp == t
  {
    forall t | exists c :: c in s && c.timestamp == t ensures t in Stamps(s) {
      var i :| 0 <= i < |s| && s[i].timestamp == t;
    }
    forall t | exists c :: c in s && c.confirmed && c.timestamp == t ensures t in ConfirmedStamps(s) {
      var i :| 0 <= i < |s| && s[i].confirmed && s[i].timestamp == t;
    }
  }

  function CountConfirmed(s: seq<Candle>): nat {
    if s == [] then 0 else CountConfirmed(s[1..]) + if s[0].confirmed then 1 else 0
  }

  predicate InOrder(s: seq<Candle>) {
    forall i, j :: 0 <= i < j < |s| ==> s[i].timestamp <= s[j].timestamp
  }

  predicate Ascending(s: seq<Candle>) {
    forall i, j :: 0 <= i < j < |s| ==> s[i].timestamp < s[j].timestamp
  }

  predicate Distinct(s: seq<Candle>) {
    forall i, j :: 0 <= i < j < |s| ==> s[i].timestamp != s[j].timestamp
  }

  function InsertByTime(c: Candle, s: seq<Candle>): seq<Candle> {
    if s == [] || c.timestamp <= s[0].timestamp then [c] + s else [s[0]] + InsertByTime(c, s[1..])
  }

  function SortByTime(s: seq<Candle>): seq<Candle> {
    if s == [] then [] else InsertByTime(s[0], SortByTime(s[1..]))
  }

  lemma {:induction false} InsertKeeps(c: Candle, s: seq<Candle>)
    ensures |InsertByTime(c, s)| == |s| + 1
    ensures Stamps(InsertByTime(c, s)) == Stamps(s) + {c.timestamp}
    ensures CountConfirmed(InsertByTime(c, s)) == CountConfirmed(s) + if c.confirmed then 1 else 0
  {
    hide Stamps;
    if s == [] || c.timestamp <= s[0].timestamp {
      assert ([c] + s)[1..] == s;
      StampsOfCons(c, s);
    } else {
      InsertKeeps(c, s[1..]);
      var rest := InsertByTime(c, s[1..]);
      assert ([s[0]] + rest)[1..] == rest;
      StampsOfCons(s[0], rest);
      StampsOfCons(s[0], s[1..]);
      assert [s[0]] + s[1..] == s;
    }
  }

  lemma {:induction false} InsertOrders(c: Candle, s: seq<Candle>)
    requires InOrder(s)
    ensures InOrder(InsertByTime(c, s))
    ensures forall j :: 0 <= j < |InsertByTime(c, s)| ==>
      c.timestamp <= InsertByTime(c, s)[j].timestamp || (s != [] && s[0].timestamp <= InsertByTime(c, s)[j].timestamp)
  {
    if s != [] && c.timestamp > s[0].timestamp {
      InsertOrders(c, s[1..]);
    }
  }

  lemma StampsOfCons(c: Candle, s: seq<Candle>)
    ensures Stamps([c] + s) == {c.timestamp} + Stamps(s)
  {
    var all := [c] + s;
    forall t | t in Stamps(s) ensures t in Stamps(all) {
      var i :| 0 <= i < |s| && s[i].timestamp == t;
      assert all[i + 1].timestamp == t;
    }
    assert all[0].timestamp == c.timestamp;
  }

  /** Sorting puts the same candles in the order of time. */
  lemma {:induction false} SortOrders(s: seq<Candle>)
    ensures InOrder(SortByTime(s)) && |SortByTime(s)| == |s|
    ensures Stamps(SortByTime(s)) == Stamps(s)
    ensures CountConfirmed(SortByTime(s)) == CountConfirmed(s)
  {
    if s != [] {
      SortOrders(s[1..]);
      InsertOrders(s[0], SortByTime(s[1..]));
      InsertKeeps(s[0], SortByTime(s[1..]));
      StampsOfCons(s[0], s[1..]);
      assert [s[0]] + s[1..] == s;
    }
  }

  lemma DistinctCons(c: Candle, s: seq<Candle>)
    ensures Distinct([c] + s) <==> Distinct(s) && c.timestamp !in Stamps(s)
  {
    var all := [c] + s;
    assert forall i :: 0 <= i < |s| ==> all[i + 1] == s[i];
    if Distinct(all) {
      forall i, j | 0 <= i < j < |s| ensures s[i].timestamp != s[j].timestamp {
        assert all[i + 1].timestamp != all[j + 1].timestamp;
      }
      forall i | 0 <= i < |s| ensures s[i].timestamp != c.timestamp {
        assert all[0].timestamp != all[i + 1].timestamp;
      }
    }
  }

  /** As many timestamps as candles: no timestamp comes twice. */
  lemma {:induction false} DistinctCount(s: seq<Candle>)
    ensures |Stamps(s)| <= |s|
    ensures |Stamps(s)| == |s| <==> Distinct(s)
  {
    if s != [] {
      hide Stamps, Distinct;
      var rest := s[1..];
      DistinctCount(rest);
      StampsOfCons(s[0], rest);
      DistinctCons(s[0], rest);
      assert [s[0]] + rest == s;
      if s[0].timestamp in Stamps(rest) {
        assert Stamps(s) == Stamps(rest);
      }
    }
  }

  lemma StrictWhenDistinct(s: seq<Candle>)
    requires InOrder(s)
    ensures |Stamps(s)| == |s| ==> Ascending(s)
  {
    DistinctCount(s);
  }

  function ByTime(s: seq<Candle>): (m: map<int, Candle>)
    requires Ascending(s)
    ensures m.Keys == Stamps(s) && forall i :: 0 <= i < |s| ==> m[s[i].timestamp] == s[i]
  {
    map i | 0 <= i < |s| :: s[i].timestamp := s[i]
  }

  /** The number of bars missing between neighbours of an ordered list. */
  function GapSum(s: seq<Candle>, interval: int): nat
    requires interval > 0
  {
    if |s| < 2 then 0
    else
      var missing := (s[1].timestamp - s[0].timestamp) / interval - 1;
      (if missing > 0 then missing else 0) + GapSum(s[1..], interval)
  }

  /** Bar i + 1 comes one step after bar i. */
  predicate StepAt(s: seq<Candle>, i: nat, step: int)
    requires i + 1 < |s|
  {
    s[i + 1].timestamp == s[i].timestamp + step
  }

  ghost predicate OneStepApart(s: seq<Candle>, step: int) {
    forall i: nat :: i + 1 < |s| ==> StepAt(s, i, step)
  }

  lemma StepsOfRest(s: seq<Candle>, step: int)
    requires |s| >= 2
    ensures OneStepApart(s, step) <==> StepAt(s, 0, step) && OneStepApart(s[1..], step)
  {
    var rest := s[1..];
    forall i: nat | i + 1 < |rest| ensures StepAt(rest, i, step) <==> StepAt(s, i + 1, step) {}
    if StepAt(s, 0, step) && OneStepApart(rest, step) {
      forall i: nat | i + 1 < |s| ensures StepAt(s, i, step) {
        assert i > 0 ==> StepAt(rest, i - 1, step);
      }
    }
  }

  /** No gap is counted exactly when neighbours are one interval apart. */
  lemma {:induction false} NoGapSteps(s: seq<Candle>, interval: int)
    requires interval > 0 && Ascending(s) && forall i :: 0 <= i < |s| ==> OnGrid(s[i].timestamp, interval)
    ensures GapSum(s, interval) == 0 <==> OneStepApart(s, interval)
  {
    hide OnGrid, OneStepApart;
    if |s| >= 2 {
      NoGapSteps(s[1..], interval);
      GridDistance(s[0].timestamp, s[1].timestamp, interval);
      MulBound((s[1].timestamp - s[0].timestamp) / interval, interval);
      StepsOfRest(s, interval);
    } else {
      assert OneStepApart(s, interval) by {
        FewSteps(s, interval);
      }
    }
  }

  lemma FewSteps(s: seq<Candle>, step: int)
    requires |s| < 2
    ensures OneStepApart(s, step)
  {
  }
}
