/** The intake of confirmed candle events: a bounded memory of recent keys in front of a bounded work
    queue. */
module EventIntakes {

  datatype EventKey = EventKey(symbol: string, timeframe: string, timestamp: int)

  /** The length of the memory. */
  const MAX_KEYS := 256

  /** `keys` is the deque of recent keys and `members` the set beside it. */
  datatype Memory = Memory(keys: seq<EventKey>, members: set<EventKey>)

  const EMPTY_MEMORY := Memory([], {})

  ghost predicate SetMatches(m: Memory) {
    forall k :: k in m.members <==> k in m.keys
  }

  ghost predicate NoRepeats(s: seq<EventKey>) {
    forall i, j :: 0 <= i < j < |s| ==> s[i] != s[j]
  }

  ghost predicate MemoryInv(m: Memory) {
    SetMatches(m) && NoRepeats(m.keys) && |m.keys| <= MAX_KEYS
  }

  /** Remember a key; a full deque first forgets its oldest. */
  function Remember(m: Memory, k: EventKey): Memory {
    if |m.keys| == MAX_KEYS then Memory(m.keys[1..] + [k], m.members - {m.keys[0]} + {k})
    else Memory(m.keys + [k], m.members + {k})
  }

  /** Take a key back whose event found the queue full. */
  function TakeBack(m: Memory, k: EventKey): Memory {
    Memory(if m.keys != [] && m.keys[|m.keys| - 1] == k then m.keys[..|m.keys| - 1] else m.keys, m.members - {k})
  }

  lemma RememberKeeps(m: Memory, k: EventKey)
    requires MemoryInv(m) && k !in m.members
    ensures MemoryInv(Remember(m, k))
    ensures Remember(m, k).keys != [] && Remember(m, k).keys[|Remember(m, k).keys| - 1] == k
  {
    var m' := Remember(m, k);
    assert k !in m.keys;
    forall x ensures x in m'.members <==> x in m'.keys {
      if |m.keys| == MAX_KEYS {
        assert m.keys == [m.keys[0]] + m.keys[1..];
      }
    }
  }

  /** Taking a key back keeps set and deque equal exactly when the key is the newest, that is when no
      other key was remembered in between. */
  lemma TakeBackKeepsIff(m: Memory, k: EventKey)
    requires MemoryInv(m) && k in m.members
    ensures SetMatches(TakeBack(m, k)) <==> m.keys[|m.keys| - 1] == k
    ensures m.keys != [] && m.keys[|m.keys| - 1] == k ==> MemoryInv(TakeBack(m, k))
  {
    var m' := TakeBack(m, k);
    var last := |m.keys| - 1;
    assert k in m.keys;
    if m.keys[last] == k {
      forall x ensures x in m'.members <==> x in m'.keys {
        assert m.keys == m.keys[..last] + [k];
        assert x in m'.keys ==> x != k;
      }
    } else {
      assert k in m'.keys && k !in m'.members;
    }
  }

  /** The keys that are left once there is room for another: without the oldest, if the deque is full. */
  ghost function Recent(keys: seq<EventKey>): seq<EventKey> {
    if |keys| >= MAX_KEYS then keys[1..] else keys
  }

  /** A remembered key is the newest, the oldest makes room for it, and taking it back takes only it. */
  lemma RecallsRecent(m: Memory, k: EventKey)
    requires MemoryInv(m)
    ensures Remember(m, k).keys == Recent(m.keys) + [k]
    ensures TakeBack(Remember(m, k), k).keys == Recent(m.keys)
  {
    assert (Recent(m.keys) + [k])[..|Recent(m.keys)|] == Recent(m.keys);
  }

  // ----- one event after the other -----

  /** The memory and the admitted keys after each event; `full` says that its put found no room. */
  datatype Arrival = Arrival(key: EventKey, full: bool)

  function Arrived(m: Memory, a: Arrival): Memory {
    if a.key in m.members then m
    else if a.full then TakeBack(Remember(m, a.key), a.key)
    else Remember(m, a.key)
  }

  predicate Admits(m: Memory, a: Arrival) {
    a.key !in m.members && !a.full
  }

  function Intake(arrivals: seq<Arrival>): (Memory, seq<EventKey>)
    decreases |arrivals|
  {
    if arrivals == [] then (EMPTY_MEMORY, [])
    else
      var (m, log) := Intake(arrivals[..|arrivals| - 1]);
      var a := arrivals[|arrivals| - 1];
      (Arrived(m, a), if Admits(m, a) then log + [a.key] else log)
  }

  /** The deque is the end of the admitted keys, and at least its last 255. */
  ghost predicate Recalls(m: Memory, log: seq<EventKey>) {
    && |m.keys| <= |log| && log[|log| - |m.keys|..] == m.keys
    && (|m.keys| >= MAX_KEYS - 1 || |m.keys| == |log|)
  }

  /** A key that comes twice comes twice only 256 or more admissions apart. */
  ghost predicate FarApart(log: seq<EventKey>) {
    forall i, j :: 0 <= i < j < |log| && log[i] == log[j] ==> j - i >= MAX_KEYS
  }

  /** What is not in the memory was not admitted lately. */
  lemma NotRecent(m: Memory, log: seq<EventKey>, k: EventKey)
    requires SetMatches(m) && Recalls(m, log) && k !in m.members
    ensures forall i :: 0 <= i < |log| && log[i] == k ==> |log| - i >= MAX_KEYS
  {
    var start := |log| - |m.keys|;
    forall i | start <= i < |log| ensures log[i] in m.members {
      assert m.keys[i - start] == log[i];
    }
  }

  lemma AdmittedKeeps(m: Memory, log: seq<EventKey>, k: EventKey)
    requires MemoryInv(m) && Recalls(m, log) && FarApart(log) && k !in m.members
    ensures Recalls(Remember(m, k), log + [k]) && FarApart(log + [k])
  {
    hide NoRepeats;
    NotRecent(m, log, k);
    hide SetMatches;
    var grown, log' := Remember(m, k), log + [k];
    assert log'[|log'| - |grown.keys|..] == grown.keys;
  }

  lemma DroppedKeeps(m: Memory, log: seq<EventKey>, k: EventKey)
    requires Recalls(m, log) && k !in m.members
    ensures Recalls(TakeBack(Remember(m, k), k), log)
  {
    assert TakeBack(Remember(m, k), k).keys == if |m.keys| == MAX_KEYS then m.keys[1..] else m.keys;
  }

  lemma ArrivedKeeps(m: Memory, log: seq<EventKey>, a: Arrival)
    requires MemoryInv(m) && Recalls(m, log) && FarApart(log)
    ensures MemoryInv(Arrived(m, a))
    ensures var log' := if Admits(m, a) then log + [a.key] else log;
            Recalls(Arrived(m, a), log') && FarApart(log')
  {
    if a.key !in m.members {
      RememberKeeps(m, a.key);
      if a.full {
        hide MemoryInv, Recalls, FarApart, Remember, TakeBack;
        RememberedLast(m, a.key);
        TakeBackKeepsIff(Remember(m, a.key), a.key);
        DroppedKeeps(m, log, a.key);
      } else {
        hide MemoryInv, Recalls, FarApart, Remember;
        AdmittedKeeps(m, log, a.key);
      }
    }
  }

  lemma RememberedLast(m: Memory, k: EventKey)
    ensures k in Remember(m, k).members
  {
  }

  /** Over any arrivals, with the queue overflowing at any of them: set and deque agree, and the same
      key is admitted again only after at least 255 other admitted keys. */
  lemma {:induction false} IntakeKeeps(arrivals: seq<Arrival>)
    ensures var (m, log) := Intake(arrivals);
            MemoryInv(m) && Recalls(m, log) && FarApart(log)
    decreases |arrivals|
  {
    if arrivals != [] {
      hide Arrived;
      IntakeKeeps(arrivals[..|arrivals| - 1]);
      var (m, log) := Intake(arrivals[..|arrivals| - 1]);
      ArrivedKeeps(m, log, arrivals[|arrivals| - 1]);
    }
  }

  lemma ArrivedIs(m: Memory, a: Arrival)
    requires a.key !in m.members
    ensures Arrived(m, a) == if a.full then TakeBack(Remember(m, a.key), a.key) else Remember(m, a.key)
    ensures Admits(m, a) <==> !a.full
    ensures a.key in Remember(m, a.key).members && a.key !in TakeBack(Remember(m, a.key), a.key).members
  {
  }

  // ----- several events at once -----

  /** The two critical sections of an event on their own: what waits to be taken back, and the keys that
      were admitted. */
  datatype Racing = Racing(memory: Memory, waiting: multiset<EventKey>, log: seq<EventKey>)

  datatype RaceStep = Comes(arrival: Arrival) | TakesBack(key: EventKey)

  const IDLE := Racing(EMPTY_MEMORY, multiset{}, [])

  function RaceOn(r: Racing, step: RaceStep): Racing {
    match step
    case Comes(a) =>
      if a.key in r.memory.members then r
      else if a.full then Racing(Remember(r.memory, a.key), r.waiting + multiset{a.key}, r.log)
      else Racing(Remember(r.memory, a.key), r.waiting, r.log + [a.key])
    case TakesBack(k) =>
      if k in r.waiting then Racing(TakeBack(r.memory, k), r.waiting - multiset{k}, r.log) else r
  }

  function RaceAll(steps: seq<RaceStep>): Racing
    decreases |steps|
  {
    if steps == [] then IDLE else RaceOn(RaceAll(steps[..|steps| - 1]), steps[|steps| - 1])
  }

  /** No new key is remembered while another waits to be taken back. */
  ghost predicate Undisturbed(steps: seq<RaceStep>) {
    forall i :: 0 <= i < |steps| && steps[i].Comes? && RaceAll(steps[..i]).waiting != multiset{} ==>
      steps[i].arrival.key in RaceAll(steps[..i]).memory.members
  }

  /** The memory before the one key that waits, if any, was remembered. */
  ghost predicate RacesWell(r: Racing) {
    && FarApart(r.log)
    && if r.waiting == multiset{} then MemoryInv(r.memory) && Recalls(r.memory, r.log)
       else exists m, k :: WaitsFor(r, m, k)
  }

  ghost predicate WaitsFor(r: Racing, m: Memory, k: EventKey) {
    && r.waiting == multiset{k} && r.memory == Remember(m, k)
    && k !in m.members && MemoryInv(m) && Recalls(m, r.log)
  }

  lemma RaceStepKeeps(r: Racing, step: RaceStep)
    requires RacesWell(r)
    requires step.Comes? && r.waiting != multiset{} ==> step.arrival.key in r.memory.members
    ensures RacesWell(RaceOn(r, step))
  {
    if step.Comes? && step.arrival.key !in r.memory.members {
      var k := step.arrival.key;
      if step.arrival.full {
        assert WaitsFor(RaceOn(r, step), r.memory, k);
      } else {
        hide MemoryInv, Recalls, FarApart, Remember;
        AdmittedKeeps(r.memory, r.log, k);
        RememberKeeps(r.memory, k);
      }
    } else if step.TakesBack? && step.key in r.waiting {
      var m, k :| WaitsFor(r, m, k);
      hide MemoryInv, Recalls, FarApart, Remember, TakeBack;
      assert step.key == k && r.waiting - multiset{k} == multiset{};
      RememberKeeps(m, k);
      RememberedLast(m, k);
      TakeBackKeepsIff(r.memory, k);
      DroppedKeeps(m, r.log, k);
    }
  }

  /** Over any undisturbed race the bound holds, and set and deque agree whenever nothing waits. */
  lemma {:induction false} UndisturbedKeeps(steps: seq<RaceStep>)
    requires Undisturbed(steps)
    ensures RacesWell(RaceAll(steps))
    decreases |steps|
  {
    hide RacesWell, RaceOn, RaceAll;
    if steps != [] {
      var before, step := steps[..|steps| - 1], steps[|steps| - 1];
      ShorterUndisturbed(steps);
      UndisturbedKeeps(before);
      RaceStepKeeps(RaceAll(before), step);
      RaceLast(steps);
    } else {
      IdleWell();
    }
  }

  lemma ShorterUndisturbed(steps: seq<RaceStep>)
    requires Undisturbed(steps) && steps != []
    ensures Undisturbed(steps[..|steps| - 1])
  {
    hide RaceAll;
    var before := steps[..|steps| - 1];
    forall i | 0 <= i < |before| ensures before[..i] == steps[..i] {}
  }

  lemma RaceLast(steps: seq<RaceStep>)
    requires steps != []
    ensures RaceAll(steps) == RaceOn(RaceAll(steps[..|steps| - 1]), steps[|steps| - 1])
  {
    hide RaceOn;
  }

  lemma IdleWell()
    ensures RaceAll([]) == IDLE && RacesWell(IDLE)
  {
  }

  function FillKeyOf(i: int): EventKey {
    EventKey("x", "1m", i)
  }

  function Fill(n: nat): seq<EventKey> {
    seq(n, i => FillKeyOf(i))
  }

  /** What is left when `n` more keys found room after the set and the deque parted over `k`. */
  function Parted(k: EventKey, j: EventKey, n: nat): Racing {
    Racing(Memory([k, j] + Fill(n), {j} + set i: int | 0 <= i < n :: FillKeyOf(i)), multiset{}, [j] + Fill(n))
  }

  lemma FillOne(k: EventKey, j: EventKey, n: nat)
    requires j.symbol == "j" && n + 3 < MAX_KEYS
    ensures RaceOn(Parted(k, j, n), Comes(Arrival(FillKeyOf(n), false))) == Parted(k, j, n + 1)
  {
    assert Fill(n + 1) == Fill(n) + [FillKeyOf(n)];
    assert FillKeyOf(n) !in Parted(k, j, n).memory.members by {
      assert FillKeyOf(n).timestamp == n && FillKeyOf(n).symbol != j.symbol;
    }
  }

  lemma {:induction false} Filled(k: EventKey, j: EventKey, n: nat) returns (steps: seq<RaceStep>)
    requires k != j && j.symbol == "j" && n + 2 < MAX_KEYS
    ensures RaceAll(steps) == Parted(k, j, n)
  {
    hide RaceAll, RaceOn, Parted;
    if n == 0 {
      steps := Diverges(k, j);
    } else {
      steps := Filled(k, j, n - 1);
      FillOne(k, j, n - 1);
      steps := After(steps, Comes(Arrival(FillKeyOf(n - 1), false)));
    }
  }

  lemma After(steps: seq<RaceStep>, step: RaceStep) returns (longer: seq<RaceStep>)
    ensures RaceAll(longer) == RaceOn(RaceAll(steps), step)
  {
    hide RaceAll, RaceOn;
    longer := steps + [step];
    assert longer[..|steps|] == steps;
    RaceLast(longer);
  }

  lemma Diverges(k: EventKey, j: EventKey) returns (steps: seq<RaceStep>)
    requires k != j
    ensures RaceAll(steps) == Parted(k, j, 0)
  {
    hide RaceAll, RaceOn, Parted, Remember, TakeBack;
    IdleWell();
    FirstTwo(k, j);
    TakenBackLate(k, j);
    steps := After([], Comes(Arrival(k, true)));
    steps := After(steps, Comes(Arrival(j, false)));
    steps := After(steps, TakesBack(k));
  }

  lemma FirstTwo(k: EventKey, j: EventKey)
    requires k != j
    ensures RaceOn(IDLE, Comes(Arrival(k, true))) == Racing(Memory([k], {k}), multiset{k}, [])
    ensures RaceOn(Racing(Memory([k], {k}), multiset{k}, []), Comes(Arrival(j, false))) ==
      Racing(Memory([k, j], {k, j}), multiset{k}, [j])
  {
  }

  lemma TakenBackLate(k: EventKey, j: EventKey)
    requires k != j
    ensures RaceOn(Racing(Memory([k, j], {k, j}), multiset{k}, [j]), TakesBack(k)) == Parted(k, j, 0)
  {
    assert {k, j} - {k} == {j};
    assert multiset{k} - multiset{k} == multiset{};
    assert Parted(k, j, 0) == Racing(Memory([k, j], {j}), multiset{}, [j]) by {
      assert Fill(0) == [];
      assert {j} + (set i: int | 0 <= i < 0 :: FillKeyOf(i)) == {j};
    }
  }

  /** With the memory almost full, the key comes again, then another that evicts its older copy, and then
      the key once more. */
  lemma AdmittedTwice(k: EventKey, j: EventKey)
    requires k.symbol == "k" && j.symbol == "j"
    ensures
      var n := MAX_KEYS - 3;
      var r1 := RaceOn(Parted(k, j, n), Comes(Arrival(k, false)));
      var r2 := RaceOn(r1, Comes(Arrival(FillKeyOf(n), false)));
      var r3 := RaceOn(r2, Comes(Arrival(k, false)));
      r3.log == Parted(k, j, n).log + [k, FillKeyOf(n), k]
  {
    var n: nat := MAX_KEYS - 3;
    var full := Parted(k, j, n);
    var x := FillKeyOf(n);
    assert k !in full.memory.members && x !in full.memory.members by {
      assert x.timestamp == n && x.symbol != j.symbol && x.symbol != k.symbol && j.symbol != k.symbol;
    }
    hide Parted;
    var r1 := RaceOn(full, Comes(Arrival(k, false)));
    assert r1.memory.keys == full.memory.keys + [k] && r1.memory.keys[0] == k by {
      FullParted(k, j);
    }
    assert |r1.memory.keys| == MAX_KEYS by {
      FullParted(k, j);
    }
  }

  lemma FullParted(k: EventKey, j: EventKey)
    ensures var m := Parted(k, j, MAX_KEYS - 3).memory;
      |m.keys| == MAX_KEYS - 1 && m.keys[0] == k
  {
  }

  /** A key is remembered while another waits to be taken back; the taken-back key stays in the deque and
      is not in the set. When it comes again it is in the deque twice, and when the older of the two is
      evicted the set forgets the newer: the same key is admitted again after one other key, not 255. */
  lemma DisturbedBreaksBound() returns (steps: seq<RaceStep>)
    ensures var log := RaceAll(steps).log;
      |log| >= 3 && log[|log| - 1] == log[|log| - 3] && !FarApart(log)
  {
    hide RaceAll, RaceOn, Parted;
    var k, j := EventKey("k", "1m", 0), EventKey("j", "1m", 0);
    var n: nat := MAX_KEYS - 3;
    assert k.symbol != j.symbol;
    steps := Filled(k, j, n);
    steps := After(steps, Comes(Arrival(k, false)));
    steps := After(steps, Comes(Arrival(FillKeyOf(n), false)));
    steps := After(steps, Comes(Arrival(k, false)));
    AdmittedTwice(k, j);
    RepeatsSoon(Parted(k, j, n).log, k, FillKeyOf(n));
  }

  lemma RepeatsSoon(log: seq<EventKey>, k: EventKey, x: EventKey)
    ensures var log' := log + [k, x, k];
      log'[|log'| - 1] == log'[|log'| - 3] && !FarApart(log')
  {
    var log' := log + [k, x, k];
    assert log'[|log|] == k && log'[|log| + 2] == k;
  }

  // ----- the service's intake -----

  datatype Admission = Ignored | Duplicate | Queued | Dropped

  class EventIntake {
    const capacity: nat
    var keys: seq<EventKey>
    var members: set<EventKey>
    var queue: seq<EventKey>
    ghost var log: seq<EventKey>       // every key that was queued
    ghost var taken: seq<EventKey>     // every key the worker took

    ghost predicate Valid()
      reads this
    {
      && MemoryInv(Memory(keys, members)) && Recalls(Memory(keys, members), log) && FarApart(log)
      && taken + queue == log && |queue| <= capacity
    }

    constructor (c: nat)
      ensures Valid() && capacity == c && log == []
    {
      capacity := c;
      keys, members, queue, log, taken := [], {}, [], [], [];
    }

    /** `_on_confirmed_candle`: a key is queued once, or dropped and forgotten again. */
    method OnConfirmedCandle(k: EventKey, closed: bool) returns (r: Admission)
      requires Valid()
      modifies this`keys, this`members, this`queue, this`log
      ensures Valid()
      ensures r.Queued? <==> !closed && k !in old(members) && |old(queue)| < capacity
      ensures r.Queued? ==> queue == old(queue) + [k] && log == old(log) + [k] && k in members
      ensures !r.Queued? ==> queue == old(queue) && log == old(log)
      ensures r.Duplicate? <==> !closed && k in old(members)
      ensures r.Dropped? ==> k !in members
      ensures r.Ignored? <==> closed
      ensures r.Ignored? || r.Duplicate? ==> keys == old(keys) && members == old(members)
      ensures r.Queued? ==> keys == Recent(old(keys)) + [k]
      ensures r.Dropped? ==> keys == Recent(old(keys))
    {
      hide Valid;
      if closed {
        return Ignored;
      }
      if k in members {
        return Duplicate;
      }
      if |queue| < capacity {
        PutNew(k);
        return Queued;
      }
      DropNew(k);
      r := Dropped;
    }

    /** A new key, and room in the queue for its event. */
    method PutNew(k: EventKey)
      requires Valid() && k !in members && |queue| < capacity
      modifies this`keys, this`members, this`queue, this`log
      ensures Valid() && queue == old(queue) + [k] && log == old(log) + [k] && k in members
      ensures keys == Recent(old(keys)) + [k]
    {
      hide MemoryInv, Recalls, FarApart, Remember, Arrived;
      ghost var m := Memory(keys, members);
      RecallsRecent(m, k);
      ArrivedKeeps(m, log, Arrival(k, false));
      ArrivedIs(m, Arrival(k, false));
      Admit(k);
      assert taken + (queue + [k]) == taken + queue + [k];
      queue := queue + [k];
      log := log + [k];
    }

    /** A new key whose event finds the queue full. */
    method DropNew(k: EventKey)
      requires Valid() && k !in members
      modifies this`keys, this`members
      ensures Valid() && k !in members && keys == Recent(old(keys))
    {
      hide MemoryInv, Recalls, FarApart, Remember, TakeBack, Arrived;
      ghost var m := Memory(keys, members);
      RecallsRecent(m, k);
      ArrivedKeeps(m, log, Arrival(k, true));
      ArrivedIs(m, Arrival(k, true));
      Admit(k);
      Rollback(k);
    }

    /** The first critical section. */
    method Admit(k: EventKey)
      modifies this`keys, this`members
      ensures Memory(keys, members) == Remember(old(Memory(keys, members)), k)
    {
      if |keys| == MAX_KEYS {
        members := members - {keys[0]};
        keys := keys[1..];
      }
      keys := keys + [k];
      members := members + {k};
    }

    /** The second critical section, after the put found the queue full. */
    method Rollback(k: EventKey)
      modifies this`keys, this`members
      ensures Memory(keys, members) == TakeBack(old(Memory(keys, members)), k)
    {
      members := members - {k};
      if keys != [] && keys[|keys| - 1] == k {
        keys := keys[..|keys| - 1];
      }
    }

    /** The worker takes the oldest event. */
    method Take() returns (k: EventKey)
      requires Valid() && queue != []
      modifies this`queue, this`taken
      ensures Valid() && k == old(queue)[0] && queue == old(queue)[1..]
    {
      k := queue[0];
      taken := taken + [k];
      queue := queue[1..];
    }
  }
}
