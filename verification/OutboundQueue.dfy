/** The connection's outbound queue: priority bands, age promotion, drop-superseded coalescing, one
    write in flight, and `clear` racing that write.

    `State` and `Step` describe the queue on values, one step per entry from the outside: an enqueue,
    the completion of the pending write, an eviction, a teardown.  The class at the end updates its
    fields in place and is proved to take exactly these steps. */
module OutboundQueues {
  import opened Wrappers
  import opened StableSorting

  const EMERGENCY_PRIORITY := 0
  const NON_EMERGENCY_FLOOR := EMERGENCY_PRIORITY + 1

  /** `Never` is the documented `Infinity`. */
  datatype AgePromotion = Every(ms: real) | Never

  datatype Options = Options(maxLength: int, agePromotion: AgePromotion)

  /** What the constructor lets through. */
  type Config = o: Options | o.maxLength > 0 && (o.agePromotion.Every? ==> o.agePromotion.ms > 0.0)
    witness Options(1000, Every(2000.0))

  /** `id` stands for the identity of the queued object and of its promise. */
  datatype Item = Item(id: nat, priority: int, enqueuedAt: real, coalesceKey: Option<string>, onWrite: bool)

  /** How a promise was first settled; later attempts have no effect. */
  datatype Settlement = Written | Superseded | HookThrew | WriterFailed | QueueCleared

  /** `draining`, `inFlight` and `cleared` are the drain loop's flags.  `settled` holds the settled
      promises, `started` the items handed to the writer and `fired` the `onWrite` calls, in order. */
  datatype State = State(
    queue: seq<Item>, draining: bool, inFlight: Option<Item>, cleared: bool,
    settled: map<nat, Settlement>, started: seq<Item>, fired: seq<nat>, nextId: nat)

  const Initial := State([], false, None, false, map[], [], [], 0)

  /** How the awaited write ended; `HookFails` is a write that succeeded and an `onWrite` that threw. */
  datatype WriteResult = WriteOk | HookFails | WriteFails

  datatype Op =
    | Enqueue(priority: int, coalesceKey: Option<string>, onWrite: bool)
    | WriteDone(result: WriteResult)
    | Drop(victim: Option<string> -> bool)
    | Clear

  // Ordering

  function Promotions(cfg: Config, waited: real): int
  {
    if waited > 0.0 && cfg.agePromotion.Every? then (waited / cfg.agePromotion.ms).Floor else 0
  }

  function EffectivePriority(cfg: Config, item: Item, now: real): int
  {
    var promoted := item.priority - Promotions(cfg, now - item.enqueuedAt);
    var floor := if item.priority <= EMERGENCY_PRIORITY then EMERGENCY_PRIORITY else NON_EMERGENCY_FLOOR;
    if promoted < floor then floor else promoted
  }

  predicate NotAfter(cfg: Config, now: real, a: Item, b: Item)
  {
    var pa, pb := EffectivePriority(cfg, a, now), EffectivePriority(cfg, b, now);
    pa < pb || (pa == pb && a.enqueuedAt <= b.enqueuedAt)
  }

  function DrainOrder(cfg: Config, now: real): (Item, Item) -> bool
  {
    (a: Item, b: Item) => NotAfter(cfg, now, a, b)
  }

  // Steps

  function Settle(settled: map<nat, Settlement>, id: nat, how: Settlement): map<nat, Settlement> {
    if id in settled then settled else settled[id := how]
  }

  function SettleAll(settled: map<nat, Settlement>, items: seq<Item>, how: Settlement): map<nat, Settlement> {
    if items == [] then settled
    else Settle(SettleAll(settled, items[..|items| - 1], how), items[|items| - 1].id, how)
  }

  function Oldest(items: seq<Item>): Option<real> {
    if items == [] then None
    else
      var before := Oldest(items[..|items| - 1]);
      var at := items[|items| - 1].enqueuedAt;
      if before.None? || at < before.value then Some(at) else before
  }

  function IsVictim(victim: Option<string> -> bool): Item -> bool {
    (it: Item) => victim(it.coalesceKey)
  }

  function IsSpared(victim: Option<string> -> bool): Item -> bool {
    (it: Item) => !victim(it.coalesceKey)
  }

  function Exactly(key: Option<string>): Option<string> -> bool {
    k => k == key
  }

  function Evict(s: State, victim: Option<string> -> bool): State {
    s.(queue := Filter(IsSpared(victim), s.queue),
       settled := SettleAll(s.settled, Filter(IsVictim(victim), s.queue), Superseded))
  }

  /** The first queued item goes to the writer. */
  function TakeHead(s: State): State
    requires s.queue != []
  {
    s.(queue := s.queue[1..], draining := true, inFlight := Some(s.queue[0]), cleared := false,
       started := s.started + [s.queue[0]])
  }

  function Sorted(cfg: Config, s: State, now: real): State
  {
    s.(queue := Sort(DrainOrder(cfg, now), s.queue))
  }

  /** The head of the drain loop: sort, then take the first item, or stop draining. */
  function StartNext(cfg: Config, s: State, now: real): State
  {
    var sorted := Sorted(cfg, s, now);
    if sorted.queue == [] then sorted.(draining := false, inFlight := None, cleared := false) else TakeHead(sorted)
  }

  function Supersede(s: State, key: Option<string>): State {
    if key.Some? then Evict(s, Exactly(key)) else s
  }

  function InheritedAt(s: State, key: Option<string>): Option<real> {
    if key.Some? then Oldest(Filter(IsVictim(Exactly(key)), s.queue)) else None
  }

  function NewItem(s: State, op: Op, now: real): Item
    requires op.Enqueue?
  {
    var inherited := InheritedAt(s, op.coalesceKey);
    Item(s.nextId, op.priority, if inherited.Some? then inherited.value else now, op.coalesceKey, op.onWrite)
  }

  predicate Accepts(cfg: Config, s: State, op: Op)
    requires op.Enqueue?
  {
    |Supersede(s, op.coalesceKey).queue| < cfg.maxLength
  }

  function Pushed(s: State, x: Item): State {
    s.(queue := s.queue + [x], nextId := s.nextId + 1)
  }

  function EnqueueStep(cfg: Config, s: State, op: Op, now: real): State
    requires op.Enqueue?
  {
    var dropped := Supersede(s, op.coalesceKey);
    if !Accepts(cfg, s, op) then dropped
    else
      var pushed := Pushed(dropped, NewItem(s, op, now));
      if pushed.draining then pushed else StartNext(cfg, pushed, now)
  }

  /** The rest of the drain loop's body once the awaited write has ended. */
  function FinishWrite(s: State, result: WriteResult): State
    requires s.inFlight.Some?
  {
    var item := s.inFlight.value;
    var hook := item.onWrite && !s.cleared && !result.WriteFails?;
    var how := if result.WriteFails? then WriterFailed
               else if hook && result.HookFails? then HookThrew else Written;
    s.(inFlight := None, cleared := false, fired := if hook then s.fired + [item.id] else s.fired,
       settled := Settle(s.settled, item.id, how))
  }

  function ClearStep(s: State): State {
    var first := if s.inFlight.Some? then Settle(s.settled, s.inFlight.value.id, QueueCleared) else s.settled;
    s.(queue := [], cleared := s.cleared || s.inFlight.Some?, settled := SettleAll(first, s.queue, QueueCleared))
  }

  function Step(cfg: Config, s: State, op: Op, now: real): State
  {
    match op
    case Enqueue(_, _, _) => EnqueueStep(cfg, s, op, now)
    case WriteDone(result) => if s.inFlight.Some? then StartNext(cfg, FinishWrite(s, result), now) else s
    case Drop(victim) => Evict(s, victim)
    case Clear => ClearStep(s)
  }

  /** A step together with the clock reading it sees. */
  datatype Tick = Tick(op: Op, now: real)

  function Run(cfg: Config, s: State, ticks: seq<Tick>): State
  {
    if ticks == [] then s
    else
      var before := Run(cfg, s, ticks[..|ticks| - 1]);
      Step(cfg, before, ticks[|ticks| - 1].op, ticks[|ticks| - 1].now)
  }

  ghost predicate ClockNeverBackwards(start: real, ticks: seq<Tick>) {
    && (forall i :: 0 <= i < |ticks| ==> start <= ticks[i].now)
    && (forall i, j :: 0 <= i < j < |ticks| ==> ticks[i].now <= ticks[j].now)
  }

  function LastReading(start: real, ticks: seq<Tick>): real {
    if ticks == [] then start else ticks[|ticks| - 1].now
  }

  // Conservation

  function HasId(id: nat): Item -> bool {
    (it: Item) => it.id == id
  }

  function HasKey(key: string): Item -> bool {
    (it: Item) => it.coalesceKey == Some(key)
  }

  /** In how many places the item with this id is: waiting, being written for a caller who still
      waits, or settled. */
  function Places(s: State, id: nat): nat {
    |Filter(HasId(id), s.queue)|
    + (if s.inFlight.Some? && s.inFlight.value.id == id && !s.cleared then 1 else 0)
    + (if id in s.settled then 1 else 0)
  }

  ghost predicate Conserved(s: State) {
    forall id: nat :: Places(s, id) == if id < s.nextId then 1 else 0
  }

  ghost predicate OneItemPerKey(s: State) {
    forall key: string :: |Filter(HasKey(key), s.queue)| <= 1
  }

  ghost predicate WritesAreSound(s: State) {
    // The writer sees an item at most once, and what it has seen no longer waits.
    && (forall i, j :: 0 <= i < j < |s.started| ==> s.started[i].id != s.started[j].id)
    && (forall x :: x in s.started ==> x.id < s.nextId && Filter(HasId(x.id), s.queue) == [])
    && (s.inFlight.Some? ==> s.inFlight.value in s.started)
    // `onWrite` fires at most once, and only for a finished write that `clear` did not abandon.
    && (forall i, j :: 0 <= i < j < |s.fired| ==> s.fired[i] != s.fired[j])
    && (forall id :: id in s.fired ==> id in s.settled && (s.settled[id].Written? || s.settled[id].HookThrew?))
    && (forall id :: id in s.fired ==> exists x :: x in s.started && x.id == id && x.onWrite)
    && (forall x :: x in s.started && x.onWrite && x.id in s.settled && s.settled[x.id].Written? ==> x.id in s.fired)
  }

  ghost predicate Inv(cfg: Config, s: State) {
    && (s.draining <==> s.inFlight.Some?)
    && (!s.draining ==> s.queue == [])
    && Accounted(cfg, s)
  }

  /** The part of the invariant that also holds in the middle of a step. */
  ghost predicate Accounted(cfg: Config, s: State) {
    && |s.queue| <= cfg.maxLength
    && (s.cleared ==>
        s.inFlight.Some? && s.inFlight.value.id in s.settled && s.settled[s.inFlight.value.id] == QueueCleared)
    && Conserved(s)
    && OneItemPerKey(s)
    && WritesAreSound(s)
  }

  lemma {:induction false} SettleAllFacts(settled: map<nat, Settlement>, items: seq<Item>, how: Settlement)
    ensures forall id :: id in SettleAll(settled, items, how) <==> id in settled || Filter(HasId(id), items) != []
    ensures forall id :: id in settled ==> SettleAll(settled, items, how)[id] == settled[id]
    ensures forall id :: id in SettleAll(settled, items, how) && id !in settled ==>
      SettleAll(settled, items, how)[id] == how
  {
    if items != [] {
      SettleAllFacts(settled, items[..|items| - 1], how);
      forall id: nat {
        FilterLast(HasId(id), items);
      }
    }
  }

  lemma {:induction false} OldestFacts(items: seq<Item>)
    ensures Oldest(items).None? <==> items == []
    ensures items != [] ==> exists x :: x in items && x.enqueuedAt == Oldest(items).value
    ensures forall x :: x in items ==> Oldest(items).Some? && Oldest(items).value <= x.enqueuedAt
  {
    if items != [] {
      OldestFacts(items[..|items| - 1]);
      assert items == items[..|items| - 1] + [items[|items| - 1]];
      assert items[|items| - 1] in items;
    }
  }

  // The order of the drain

  lemma ScaleUp(ms: real, a: real, b: real)
    requires ms > 0.0 && a < b
    ensures a * ms < b * ms
  {
  }

  lemma QuotientGrows(ms: real, shorter: real, longer: real)
    requires ms > 0.0 && shorter <= longer
    ensures (shorter / ms).Floor <= (longer / ms).Floor
  {
    var a, b := shorter / ms, longer / ms;
    assert a * ms == shorter && b * ms == longer;
    if a > b {
      ScaleUp(ms, b, a);
    }
  }

  lemma PromotionsGrow(cfg: Config, shorter: real, longer: real)
    requires shorter <= longer
    ensures 0 <= Promotions(cfg, shorter) <= Promotions(cfg, longer)
  {
    if cfg.agePromotion.Every? {
      var ms := cfg.agePromotion.ms;
      if shorter > 0.0 {
        QuotientGrows(ms, 0.0, shorter);
        QuotientGrows(ms, shorter, longer);
      } else if longer > 0.0 {
        QuotientGrows(ms, 0.0, longer);
      }
      assert 0.0 / ms == 0.0;
    }
  }

  lemma PromotionsReach(ms: real, waited: real, bands: int)
    requires ms > 0.0 && waited >= bands as real * ms
    ensures (waited / ms).Floor >= bands
  {
    assert bands as real * ms / ms == bands as real;
    QuotientGrows(ms, bands as real * ms, waited);
  }

  lemma DrainOrderIsPreorder(cfg: Config, now: real)
    ensures TotalPreorder(DrainOrder(cfg, now))
  {
    var le := DrainOrder(cfg, now);
    forall x, y, z | le(x, y) && le(y, z) ensures le(x, z) {
      assert NotAfter(cfg, now, x, y) && NotAfter(cfg, now, y, z);
    }
  }

  /** An older item of the same band is never behind: aging only widens its lead. */
  lemma OlderIsAhead(cfg: Config, now: real, a: Item, b: Item)
    requires a.priority == b.priority && a.enqueuedAt <= b.enqueuedAt
    ensures NotAfter(cfg, now, a, b)
  {
    PromotionsGrow(cfg, now - b.enqueuedAt, now - a.enqueuedAt);
  }

  // Every step keeps the invariant

  lemma EvictPlaces(s: State, victim: Option<string> -> bool)
    requires Conserved(s)
    ensures Conserved(Evict(s, victim))
  {
    var t := Evict(s, victim);
    SettleAllFacts(s.settled, Filter(IsVictim(victim), s.queue), Superseded);
    forall id: nat ensures Places(t, id) == if id < t.nextId then 1 else 0 {
      assert Places(s, id) == if id < s.nextId then 1 else 0;
      FilterSplit(HasId(id), IsSpared(victim), IsVictim(victim), s.queue);
    }
  }

  lemma EvictSpares(s: State, victim: Option<string> -> bool, p: Item -> bool)
    ensures |Filter(p, Evict(s, victim).queue)| <= |Filter(p, s.queue)|
  {
    FilterSplit(p, IsSpared(victim), IsVictim(victim), s.queue);
  }

  lemma EvictAccounted(cfg: Config, s: State, victim: Option<string> -> bool)
    requires Accounted(cfg, s)
    ensures Accounted(cfg, Evict(s, victim))
    ensures |Evict(s, victim).queue| + |Filter(IsVictim(victim), s.queue)| == |s.queue|
    ensures forall key :: victim(Some(key)) ==> Filter(HasKey(key), Evict(s, victim).queue) == []
  {
    var t := Evict(s, victim);
    EvictPlaces(s, victim);
    FilterLengths(IsSpared(victim), IsVictim(victim), s.queue);
    SettleAllFacts(s.settled, Filter(IsVictim(victim), s.queue), Superseded);
    forall x | x in s.started ensures Filter(HasId(x.id), t.queue) == [] {
      EvictSpares(s, victim, HasId(x.id));
    }
    forall key: string ensures |Filter(HasKey(key), t.queue)| <= 1 {
      EvictSpares(s, victim, HasKey(key));
    }
    forall key | victim(Some(key)) ensures Filter(HasKey(key), t.queue) == [] {
      if Filter(HasKey(key), t.queue) != [] {
        var x := Filter(HasKey(key), t.queue)[0];
        FilterMember(HasKey(key), t.queue, x);
        FilterMember(IsSpared(victim), s.queue, x);
        assert false;
      }
    }
  }

  lemma SortAccounted(cfg: Config, s: State, now: real)
    requires Accounted(cfg, s)
    ensures Accounted(cfg, Sorted(cfg, s, now))
  {
    var le := DrainOrder(cfg, now);
    var t := Sorted(cfg, s, now);
    DrainOrderIsPreorder(cfg, now);
    SortFacts(le, s.queue);
    forall id: nat ensures |Filter(HasId(id), t.queue)| == |Filter(HasId(id), s.queue)| {
      SortCount(le, HasId(id), s.queue);
    }
    forall id: nat ensures Places(t, id) == Places(s, id) {
    }
    forall key: string ensures |Filter(HasKey(key), t.queue)| <= 1 {
      SortCount(le, HasKey(key), s.queue);
    }
  }

  lemma TakeHeadPlaces(s: State, id: nat)
    requires s.inFlight.None? && s.queue != []
    ensures Places(TakeHead(s), id) == Places(s, id)
    ensures |Filter(HasId(id), TakeHead(s).queue)| ==
      |Filter(HasId(id), s.queue)| - if s.queue[0].id == id then 1 else 0
  {
  }

  lemma TakeHeadWrites(s: State)
    requires WritesAreSound(s) && Conserved(s) && s.inFlight.None? && s.queue != []
    ensures WritesAreSound(TakeHead(s))
  {
    var head := s.queue[0];
    var t := TakeHead(s);
    TakeHeadPlaces(s, head.id);
    assert Places(s, head.id) == 1;
    forall x | x in s.started ensures x.id != head.id && Filter(HasId(x.id), t.queue) == [] {
      TakeHeadPlaces(s, x.id);
    }
    forall i | 0 <= i < |s.started| ensures s.started[i].id != head.id {
      assert s.started[i] in s.started;
    }
    forall id | id in t.fired ensures exists x :: x in t.started && x.id == id && x.onWrite {
      var x :| x in s.started && x.id == id && x.onWrite;
      assert x in t.started;
    }
  }

  lemma TakeHeadAccounted(cfg: Config, s: State)
    requires Accounted(cfg, s) && s.inFlight.None? && s.queue != []
    ensures Accounted(cfg, TakeHead(s))
  {
    TakeHeadWrites(s);
    var t := TakeHead(s);
    forall id: nat ensures Places(t, id) == Places(s, id) {
      TakeHeadPlaces(s, id);
    }
    forall key: string ensures |Filter(HasKey(key), t.queue)| <= |Filter(HasKey(key), s.queue)| {
    }
  }

  lemma StartNextAccounted(cfg: Config, s: State, now: real)
    requires Accounted(cfg, s) && s.inFlight.None?
    ensures Inv(cfg, StartNext(cfg, s, now))
  {
    SortAccounted(cfg, s, now);
    if Sorted(cfg, s, now).queue != [] {
      TakeHeadAccounted(cfg, Sorted(cfg, s, now));
    } else {
      forall id: nat ensures Places(StartNext(cfg, s, now), id) == Places(Sorted(cfg, s, now), id) {
      }
    }
  }

  lemma SortedFacts(cfg: Config, s: State, now: real)
    ensures Ordered(DrainOrder(cfg, now), Sorted(cfg, s, now).queue)
    ensures forall x :: x in Sorted(cfg, s, now).queue <==> x in s.queue
    ensures |Sorted(cfg, s, now).queue| == |s.queue|
  {
    DrainOrderIsPreorder(cfg, now);
    SortFacts(DrainOrder(cfg, now), s.queue);
  }

  lemma FinishWriteSound(s: State, result: WriteResult)
    requires WritesAreSound(s) && s.inFlight.Some? && Places(s, s.inFlight.value.id) == 1
    requires s.cleared ==> s.inFlight.value.id in s.settled
    ensures WritesAreSound(FinishWrite(s, result))
  {
    var item := s.inFlight.value;
    assert !s.cleared ==> item.id !in s.settled;
    forall x | x in s.started && x.id == item.id ensures x == item {
      var i, j :| 0 <= i < |s.started| && 0 <= j < |s.started| && s.started[i] == x && s.started[j] == item;
      assert i == j;
    }
  }

  lemma FinishWriteAccounted(cfg: Config, s: State, result: WriteResult)
    requires Accounted(cfg, s) && s.inFlight.Some?
    ensures Accounted(cfg, FinishWrite(s, result))
  {
    var item := s.inFlight.value;
    var t := FinishWrite(s, result);
    assert Places(s, item.id) == 1;
    forall id: nat ensures Places(t, id) == Places(s, id) {
    }
    FinishWriteSound(s, result);
  }

  lemma ClearAccounted(cfg: Config, s: State)
    requires Accounted(cfg, s)
    ensures Accounted(cfg, ClearStep(s))
  {
    var t := ClearStep(s);
    var first := if s.inFlight.Some? then Settle(s.settled, s.inFlight.value.id, QueueCleared) else s.settled;
    SettleAllFacts(first, s.queue, QueueCleared);
    forall id: nat ensures Places(t, id) == Places(s, id) {
      assert Places(s, id) == if id < s.nextId then 1 else 0;
    }
    if s.inFlight.Some? && !s.cleared {
      assert Places(s, s.inFlight.value.id) == 1;
    }
  }

  lemma PushAccounted(cfg: Config, s: State, x: Item)
    requires Accounted(cfg, s) && |s.queue| < cfg.maxLength && x.id == s.nextId
    requires x.coalesceKey.Some? ==> Filter(HasKey(x.coalesceKey.value), s.queue) == []
    ensures Accounted(cfg, Pushed(s, x))
  {
    var t := Pushed(s, x);
    forall id: nat ensures Filter(HasId(id), t.queue) == Filter(HasId(id), s.queue) + if id == x.id then [x] else [] {
      FilterConcat(HasId(id), s.queue, [x]);
    }
    assert Places(s, s.nextId) == 0;
    forall id: nat ensures Places(t, id) == if id < t.nextId then 1 else 0 {
      assert Places(s, id) == if id < s.nextId then 1 else 0;
    }
    forall key: string ensures |Filter(HasKey(key), t.queue)| <= 1 {
      FilterConcat(HasKey(key), s.queue, [x]);
    }
  }

  lemma EnqueueKeepsInv(cfg: Config, s: State, op: Op, now: real)
    requires Inv(cfg, s) && op.Enqueue?
    ensures Inv(cfg, EnqueueStep(cfg, s, op, now))
  {
    var key := op.coalesceKey;
    if key.Some? {
      EvictAccounted(cfg, s, Exactly(key));
    }
    var dropped := Supersede(s, key);
    if Accepts(cfg, s, op) {
      var x := NewItem(s, op, now);
      PushAccounted(cfg, dropped, x);
      var pushed := Pushed(dropped, x);
      if !pushed.draining {
        StartNextAccounted(cfg, pushed, now);
      }
    }
  }

  lemma StepKeepsInv(cfg: Config, s: State, op: Op, now: real)
    requires Inv(cfg, s)
    ensures Inv(cfg, Step(cfg, s, op, now))
  {
    match op {
      case Enqueue(_, _, _) => EnqueueKeepsInv(cfg, s, op, now);
      case WriteDone(result) =>
        if s.inFlight.Some? {
          FinishWriteAccounted(cfg, s, result);
          StartNextAccounted(cfg, FinishWrite(s, result), now);
        }
      case Drop(victim) => EvictAccounted(cfg, s, victim);
      case Clear => ClearAccounted(cfg, s);
    }
  }

  /** Conservation over every run, with nothing assumed about the clock: each accepted item is
      waiting, being written or settled, and exactly one of these; the queue stays within its bound
      and holds one item per key; `onWrite` fires at most once and only for a real write. */
  lemma {:induction false} RunKeepsInv(cfg: Config, ticks: seq<Tick>)
    ensures Inv(cfg, Run(cfg, Initial, ticks))
  {
    if ticks == [] {
      assert forall id: nat :: Places(Initial, id) == 0;
    } else {
      RunKeepsInv(cfg, ticks[..|ticks| - 1]);
      var last := ticks[|ticks| - 1];
      StepKeepsInv(cfg, Run(cfg, Initial, ticks[..|ticks| - 1]), last.op, last.now);
    }
  }

  /** A settled promise never changes its outcome. */
  lemma SettledForGood(cfg: Config, s: State, op: Op, now: real, id: nat)
    requires id in s.settled
    ensures id in Step(cfg, s, op, now).settled && Step(cfg, s, op, now).settled[id] == s.settled[id]
  {
    match op {
      case Enqueue(_, key, _) =>
        if key.Some? {
          SettleAllFacts(s.settled, Filter(IsVictim(Exactly(key)), s.queue), Superseded);
        }
      case WriteDone(_) =>
      case Drop(victim) => SettleAllFacts(s.settled, Filter(IsVictim(victim), s.queue), Superseded);
      case Clear =>
        var first := if s.inFlight.Some? then Settle(s.settled, s.inFlight.value.id, QueueCleared) else s.settled;
        SettleAllFacts(first, s.queue, QueueCleared);
    }
  }

  /** A re-send that superseded something is never turned away for lack of room. */
  lemma SupersedingFits(cfg: Config, s: State, op: Op)
    requires Inv(cfg, s) && op.Enqueue?
    requires InheritedAt(s, op.coalesceKey).Some?
    ensures Accepts(cfg, s, op)
  {
    EvictAccounted(cfg, s, Exactly(op.coalesceKey));
    OldestFacts(Filter(IsVictim(Exactly(op.coalesceKey)), s.queue));
  }

  // Order of the writes

  /** A waiting emergency item is never passed over for anything of a lower band, however old. */
  lemma EmergencyGoesFirst(cfg: Config, s: State, now: real, emergency: Item)
    requires emergency in s.queue && emergency.priority <= EMERGENCY_PRIORITY
    ensures StartNext(cfg, s, now).inFlight.Some?
    ensures StartNext(cfg, s, now).inFlight.value.priority <= EMERGENCY_PRIORITY
  {
    SortedFacts(cfg, s, now);
    var q := Sorted(cfg, s, now).queue;
    var i :| 0 <= i < |q| && q[i] == emergency;
    if i > 0 {
      assert DrainOrder(cfg, now)(q[0], q[i]);
    }
  }

  /** Items of one band sent without a coalesce key. */
  function Plain(band: int): Item -> bool {
    (it: Item) => it.priority == band && it.coalesceKey.None?
  }

  function EnqueuedBefore(): (Item, Item) -> bool {
    (a: Item, b: Item) => a.id < b.id && a.enqueuedAt <= b.enqueuedAt
  }

  /** All items that were or will be written, in the order in which this is known so far. */
  function Line(s: State): seq<Item> {
    s.started + s.queue
  }

  /** A part of the line in enqueue order, all of it known before `clock` and numbered below `nextId`. */
  ghost predicate PartInOrder(part: seq<Item>, nextId: nat, clock: real) {
    Ordered(EnqueuedBefore(), part) && forall x :: x in part ==> x.id < nextId && x.enqueuedAt <= clock
  }

  ghost predicate InEnqueueOrder(s: State, band: int, clock: real) {
    PartInOrder(Filter(Plain(band), Line(s)), s.nextId, clock)
  }

  lemma OrderedParts<T>(le: (T, T) -> bool, a: seq<T>, b: seq<T>)
    requires Ordered(le, a + b)
    ensures Ordered(le, a) && Ordered(le, b)
  {
    assert forall i :: 0 <= i < |a| ==> a[i] == (a + b)[i];
    assert forall i :: 0 <= i < |b| ==> b[i] == (a + b)[|a| + i];
  }

  lemma SortKeepsBand(cfg: Config, s: State, now: real, band: int)
    requires Ordered(EnqueuedBefore(), Filter(Plain(band), Line(s)))
    ensures Filter(Plain(band), Line(Sorted(cfg, s, now))) == Filter(Plain(band), Line(s))
  {
    var p := Plain(band);
    FilterConcat(p, s.started, s.queue);
    OrderedParts(EnqueuedBefore(), Filter(p, s.started), Filter(p, s.queue));
    var part := Filter(p, s.queue);
    forall i, j | 0 <= i < j < |part| ensures DrainOrder(cfg, now)(part[i], part[j]) {
      assert part[i] in part && part[j] in part;
      FilterMember(p, s.queue, part[i]);
      FilterMember(p, s.queue, part[j]);
      assert EnqueuedBefore()(part[i], part[j]);
      OlderIsAhead(cfg, now, part[i], part[j]);
    }
    SortKeepsOrderedPart(DrainOrder(cfg, now), p, s.queue);
    FilterConcat(p, s.started, Sorted(cfg, s, now).queue);
  }

  lemma StartNextKeepsBand(cfg: Config, s: State, now: real, band: int, clock: real)
    requires InEnqueueOrder(s, band, clock)
    ensures InEnqueueOrder(StartNext(cfg, s, now), band, clock)
  {
    SortKeepsBand(cfg, s, now, band);
    var sorted := Sorted(cfg, s, now);
    if sorted.queue != [] {
      assert Line(TakeHead(sorted)) == Line(sorted);
    }
  }

  lemma EvictKeepsBand(s: State, victim: Option<string> -> bool, band: int, clock: real)
    requires InEnqueueOrder(s, band, clock)
    ensures InEnqueueOrder(Evict(s, victim), band, clock)
  {
    var p := Plain(band);
    var t := Evict(s, victim);
    FilterConcat(p, s.started, s.queue);
    FilterConcat(p, s.started, t.queue);
    var a, b, c := Filter(p, s.started), Filter(p, s.queue), Filter(p, t.queue);
    OrderedParts(EnqueuedBefore(), a, b);
    FilterKeepsOrder(EnqueuedBefore(), p, IsSpared(victim), s.queue);
    forall x | x in c ensures x in b {
      FilterMember(p, t.queue, x);
      FilterMember(IsSpared(victim), s.queue, x);
      FilterMember(p, s.queue, x);
    }
    OrderedTail(EnqueuedBefore(), a, b, c);
    forall x | x in a + c ensures x in a + b {
    }
  }

  lemma OrderedTail<T>(le: (T, T) -> bool, a: seq<T>, b: seq<T>, c: seq<T>)
    requires Ordered(le, a + b) && Ordered(le, c) && forall x :: x in c ==> x in b
    ensures Ordered(le, a + c)
  {
    OrderedParts(le, a, b);
    forall i, j | 0 <= i < |a| && 0 <= j < |c| ensures le(a[i], c[j]) {
      assert c[j] in c;
      var k :| 0 <= k < |b| && b[k] == c[j];
      assert (a + b)[i] == a[i] && (a + b)[|a| + k] == b[k];
    }
  }

  lemma PartGrows(part: seq<Item>, x: Item, clock: real, now: real)
    requires PartInOrder(part, x.id, clock) && clock <= now == x.enqueuedAt
    ensures PartInOrder(part + [x], x.id + 1, now)
  {
    forall i | 0 <= i < |part| ensures EnqueuedBefore()(part[i], x) {
      assert part[i] in part;
    }
    OrderedSnoc(EnqueuedBefore(), part, x);
  }

  lemma PushedPart(p: Item -> bool, line: seq<Item>, x: Item)
    ensures Filter(p, line + [x]) == if p(x) then Filter(p, line) + [x] else Filter(p, line)
  {
    FilterConcat(p, line, [x]);
    FilterOne(p, x);
  }

  lemma PushKeepsBand(s: State, x: Item, band: int, clock: real, now: real)
    requires InEnqueueOrder(s, band, clock) && clock <= now
    requires x.id == s.nextId && (x.coalesceKey.None? ==> x.enqueuedAt == now)
    ensures InEnqueueOrder(Pushed(s, x), band, now)
  {
    var t := Pushed(s, x);
    assert Line(t) == Line(s) + [x];
    PushedPart(Plain(band), Line(s), x);
    if Plain(band)(x) {
      PartGrows(Filter(Plain(band), Line(s)), x, clock, now);
    }
  }

  lemma SupersedeKeepsBand(s: State, key: Option<string>, band: int, clock: real)
    requires InEnqueueOrder(s, band, clock)
    ensures InEnqueueOrder(Supersede(s, key), band, clock)
  {
    if key.Some? {
      EvictKeepsBand(s, Exactly(key), band, clock);
    }
  }

  lemma LaterKeepsBand(s: State, band: int, clock: real, now: real)
    requires InEnqueueOrder(s, band, clock) && clock <= now
    ensures InEnqueueOrder(s, band, now)
  {
  }

  lemma AcceptKeepsBand(cfg: Config, s: State, x: Item, now: real, clock: real, band: int)
    requires InEnqueueOrder(s, band, clock) && clock <= now
    requires x.id == s.nextId && (x.coalesceKey.None? ==> x.enqueuedAt == now)
    ensures InEnqueueOrder(Pushed(s, x), band, now) && InEnqueueOrder(StartNext(cfg, Pushed(s, x), now), band, now)
  {
    PushKeepsBand(s, x, band, clock, now);
    StartNextKeepsBand(cfg, Pushed(s, x), now, band, now);
  }

  lemma EnqueueKeepsBand(cfg: Config, s: State, op: Op, now: real, clock: real, band: int)
    requires InEnqueueOrder(s, band, clock) && clock <= now && op.Enqueue?
    ensures InEnqueueOrder(EnqueueStep(cfg, s, op, now), band, now)
  {
    var dropped := Supersede(s, op.coalesceKey);
    SupersedeKeepsBand(s, op.coalesceKey, band, clock);
    if Accepts(cfg, s, op) {
      AcceptKeepsBand(cfg, dropped, NewItem(s, op, now), now, clock, band);
    } else {
      LaterKeepsBand(dropped, band, clock, now);
    }
  }

  lemma ClearKeepsBand(s: State, band: int, clock: real)
    requires InEnqueueOrder(s, band, clock)
    ensures InEnqueueOrder(ClearStep(s), band, clock)
  {
    FilterConcat(Plain(band), s.started, s.queue);
    assert Line(ClearStep(s)) == s.started;
    OrderedParts(EnqueuedBefore(), Filter(Plain(band), s.started), Filter(Plain(band), s.queue));
  }

  lemma StepKeepsBand(cfg: Config, s: State, tick: Tick, clock: real, band: int)
    requires InEnqueueOrder(s, band, clock) && clock <= tick.now
    ensures InEnqueueOrder(Step(cfg, s, tick.op, tick.now), band, tick.now)
  {
    match tick.op {
      case Enqueue(_, _, _) => EnqueueKeepsBand(cfg, s, tick.op, tick.now, clock, band);
      case WriteDone(result) =>
        if s.inFlight.Some? {
          assert Line(FinishWrite(s, result)) == Line(s);
          StartNextKeepsBand(cfg, FinishWrite(s, result), tick.now, band, clock);
        }
      case Drop(victim) => EvictKeepsBand(s, victim, band, clock);
      case Clear => ClearKeepsBand(s, band, clock);
    }
  }

  lemma {:induction false} RunKeepsBand(cfg: Config, ticks: seq<Tick>, start: real, band: int)
    requires ClockNeverBackwards(start, ticks)
    ensures InEnqueueOrder(Run(cfg, Initial, ticks), band, LastReading(start, ticks))
  {
    if ticks != [] {
      var before := ticks[..|ticks| - 1];
      RunKeepsBand(cfg, before, start, band);
      StepKeepsBand(cfg, Run(cfg, Initial, before), ticks[|ticks| - 1], LastReading(start, before), band);
    }
  }

  /** FIFO within a band: although the queue is re-sorted with aging before every write, items of one
      band sent without a coalesce key reach the writer in the order in which they were enqueued. */
  lemma WrittenInEnqueueOrder(cfg: Config, ticks: seq<Tick>, start: real, band: int)
    requires ClockNeverBackwards(start, ticks)
    ensures Ordered(EnqueuedBefore(), Filter(Plain(band), Run(cfg, Initial, ticks).started))
  {
    RunKeepsBand(cfg, ticks, start, band);
    var s := Run(cfg, Initial, ticks);
    FilterConcat(Plain(band), s.started, s.queue);
    OrderedParts(EnqueuedBefore(), Filter(Plain(band), s.started), Filter(Plain(band), s.queue));
  }

  // Which item is written next

  /** The band an item competes in: one band up for every full period it has waited, but never above the floor of
      the non-emergency bands; emergencies have band 0 to themselves. */
  ghost predicate AtBand(cfg: Config, it: Item, now: real, band: int) {
    var waited := now - it.enqueuedAt;
    if it.priority <= EMERGENCY_PRIORITY then band == EMERGENCY_PRIORITY
    else
      && NON_EMERGENCY_FLOOR <= band <= it.priority
      && if cfg.agePromotion.Never? || waited <= 0.0 then band == it.priority
         else (it.priority - band) as real * cfg.agePromotion.ms <= waited
              && (band == NON_EMERGENCY_FLOOR || waited < (it.priority - band + 1) as real * cfg.agePromotion.ms)
  }

  /** Whole periods in a time. */
  lemma PeriodsFit(ms: real, waited: real, periods: int)
    requires ms > 0.0
    ensures (waited / ms).Floor >= periods <==> periods as real * ms <= waited
  {
    var q := waited / ms;
    assert q * ms == waited;
    if periods as real <= q {
      ScaleUpOrSame(ms, periods as real, q);
    } else {
      ScaleUp(ms, q, periods as real);
    }
  }

  lemma ScaleUpOrSame(ms: real, a: real, b: real)
    requires ms > 0.0 && a <= b
    ensures a * ms <= b * ms
  {
    if a < b {
      ScaleUp(ms, a, b);
    }
  }

  /** The priority the queue sorts by is the band. */
  lemma BandIsEffective(cfg: Config, it: Item, now: real, band: int)
    ensures AtBand(cfg, it, now, band) <==> band == EffectivePriority(cfg, it, now)
  {
    var waited := now - it.enqueuedAt;
    if it.priority > EMERGENCY_PRIORITY && cfg.agePromotion.Every? && waited > 0.0 {
      var ms := cfg.agePromotion.ms;
      PromotionsGrow(cfg, 0.0, waited);
      PeriodsFit(ms, waited, it.priority - band);
      PeriodsFit(ms, waited, it.priority - band + 1);
    }
  }

  /** The next write goes to the lowest band, and within it to the item queued first. */
  lemma MostUrgentIsStarted(cfg: Config, s: State, now: real, x: Item, band: int)
    requires x in s.queue && AtBand(cfg, x, now, band)
    ensures var t := StartNext(cfg, s, now);
      && t.inFlight.Some? && t.inFlight.value in s.queue
      && exists b :: AtBand(cfg, t.inFlight.value, now, b)
                     && (b < band || (b == band && t.inFlight.value.enqueuedAt <= x.enqueuedAt))
  {
    SortedFacts(cfg, s, now);
    var sorted := Sorted(cfg, s, now).queue;
    var head := sorted[0];
    assert head in sorted;
    var i :| 0 <= i < |sorted| && sorted[i] == x;
    assert i > 0 ==> DrainOrder(cfg, now)(head, x);
    BandIsEffective(cfg, x, now, band);
    BandIsEffective(cfg, head, now, EffectivePriority(cfg, head, now));
    assert NotAfter(cfg, now, head, x);
  }

  lemma BandTakesAge(cfg: Config, it: Item, now: real, band: int, target: int)
    requires AtBand(cfg, it, now, band) && it.priority > EMERGENCY_PRIORITY && band <= target < it.priority
    ensures target > EMERGENCY_PRIORITY && cfg.agePromotion.Every?
    ensures now - it.enqueuedAt >= (it.priority - target) as real * cfg.agePromotion.ms
  {
    ScaleUpOrSame(cfg.agePromotion.ms, (it.priority - target) as real, (it.priority - band) as real);
  }

  /** An item is written before a more urgent one only if it has waited for as many periods as bands lie between
      them, and no item is written before an emergency. */
  lemma OvertakingTakesAge(cfg: Config, s: State, now: real, x: Item)
    requires x in s.queue
    ensures var h := StartNext(cfg, s, now).inFlight;
      && h.Some?
      && (h.value.priority > NON_EMERGENCY_FLOOR && x.priority < h.value.priority ==>
            && x.priority > EMERGENCY_PRIORITY && cfg.agePromotion.Every?
            && now - h.value.enqueuedAt >= (h.value.priority - x.priority) as real * cfg.agePromotion.ms)
  {
    var bx := EffectivePriority(cfg, x, now);
    BandIsEffective(cfg, x, now, bx);
    MostUrgentIsStarted(cfg, s, now, x, bx);
    var h := StartNext(cfg, s, now).inFlight.value;
    var b :| AtBand(cfg, h, now, b) && b <= bx;
    if h.priority > NON_EMERGENCY_FLOOR && x.priority < h.priority {
      if x.priority <= EMERGENCY_PRIORITY {
        assert false;
      }
      BandTakesAge(cfg, h, now, b, x.priority);
    }
  }

  /** Without aging, priority is strict. */
  lemma WithoutAgingPriorityIsStrict(cfg: Config, s: State, now: real, x: Item)
    requires x in s.queue && cfg.agePromotion.Never? && x.priority >= NON_EMERGENCY_FLOOR
    ensures StartNext(cfg, s, now).inFlight.Some? && StartNext(cfg, s, now).inFlight.value.priority <= x.priority
  {
    OvertakingTakesAge(cfg, s, now, x);
  }

  // What an enqueue accepts and queues

  /** An enqueue is rejected exactly when the queue is full and holds nothing it supersedes. */
  lemma RejectedIffFull(cfg: Config, s: State, op: Op)
    requires Inv(cfg, s) && op.Enqueue?
    ensures !Accepts(cfg, s, op) <==>
      |s.queue| == cfg.maxLength && !exists x :: x in s.queue && x.coalesceKey.Some? && x.coalesceKey == op.coalesceKey
  {
    if op.coalesceKey.Some? {
      var victim := Exactly(op.coalesceKey);
      var out := Filter(IsVictim(victim), s.queue);
      EvictAccounted(cfg, s, victim);
      FilterMembers(IsVictim(victim), s.queue);
      assert out != [] ==> out[0] in out;
      assert (exists x :: x in s.queue && x.coalesceKey == op.coalesceKey) <==> out != [];
    }
  }

  /** The item that an accepted enqueue queues has the caller's priority, key and hook, and the clock's time, or the
      time of the oldest item it supersedes. */
  lemma EnqueueQueuesItsItem(cfg: Config, s: State, op: Op, now: real)
    requires Inv(cfg, s) && op.Enqueue? && Accepts(cfg, s, op)
    ensures var t := Step(cfg, s, op, now);
      exists x :: (x in t.queue || t.inFlight == Some(x)) && IsItemOf(s, op, now, x)
  {
    NewItemIsItemOf(s, op, now);
    PushedIsKept(cfg, Supersede(s, op.coalesceKey), NewItem(s, op, now), now);
  }

  lemma PushedIsKept(cfg: Config, s: State, x: Item, now: real)
    ensures x in Pushed(s, x).queue
    ensures var t := StartNext(cfg, Pushed(s, x), now); x in t.queue || t.inFlight == Some(x)
  {
    var sorted := Sorted(cfg, Pushed(s, x), now).queue;
    SortedFacts(cfg, Pushed(s, x), now);
    assert x in sorted && sorted == [sorted[0]] + sorted[1..];
  }

  lemma NewItemIsItemOf(s: State, op: Op, now: real)
    requires op.Enqueue?
    ensures IsItemOf(s, op, now, NewItem(s, op, now))
  {
    if op.coalesceKey.Some? {
      var victims := Filter(IsVictim(Exactly(op.coalesceKey)), s.queue);
      OldestFacts(victims);
      FilterMembers(IsVictim(Exactly(op.coalesceKey)), s.queue);
      forall y ensures Superseding(s, op, y) <==> y in victims {
      }
      if victims != [] {
        var y :| y in victims && y.enqueuedAt == Oldest(victims).value;
        assert Superseding(s, op, y);
      }
    }
  }

  ghost predicate Superseding(s: State, op: Op, y: Item)
    requires op.Enqueue?
  {
    y in s.queue && y.coalesceKey.Some? && y.coalesceKey == op.coalesceKey
  }

  ghost predicate IsItemOf(s: State, op: Op, now: real, x: Item)
    requires op.Enqueue?
  {
    && x.id == s.nextId && x.priority == op.priority && x.coalesceKey == op.coalesceKey && x.onWrite == op.onWrite
    && (forall y :: Superseding(s, op, y) ==> x.enqueuedAt <= y.enqueuedAt)
    && (x.enqueuedAt == now || exists y :: Superseding(s, op, y) && x.enqueuedAt == y.enqueuedAt)
    && ((forall y :: !Superseding(s, op, y)) ==> x.enqueuedAt == now)
  }

  // Why a promise is settled

  /** The item is queued and the step evicts it. */
  ghost predicate IsEvicted(s: State, op: Op, id: nat) {
    exists x :: x in s.queue && x.id == id &&
      match op
      case Enqueue(_, key, _) => key.Some? && x.coalesceKey == key
      case Drop(victim) => victim(x.coalesceKey)
      case _ => false
  }

  ghost predicate IsQueued(s: State, id: nat) {
    exists x :: x in s.queue && x.id == id
  }

  /** What a step settles a promise with, and when. */
  ghost predicate SettlesWith(s: State, op: Op, id: nat, how: Settlement) {
    var writing := s.inFlight.Some? && s.inFlight.value.id == id && !s.cleared;
    match how
    case Superseded => IsEvicted(s, op, id)
    case QueueCleared => op.Clear? && (IsQueued(s, id) || writing)
    case WriterFailed => op == WriteDone(WriteFails) && writing
    case HookThrew => op == WriteDone(HookFails) && writing && s.inFlight.value.onWrite
    case Written => writing && (op == WriteDone(WriteOk) || (op == WriteDone(HookFails) && !s.inFlight.value.onWrite))
  }

  lemma EvictSettles(s: State, victim: Option<string> -> bool, id: nat, how: Settlement)
    requires id !in s.settled
    ensures (id in Evict(s, victim).settled && Evict(s, victim).settled[id] == how) <==>
      how == Superseded && exists x :: x in s.queue && x.id == id && victim(x.coalesceKey)
  {
    var out := Filter(IsVictim(victim), s.queue);
    SettleAllFacts(s.settled, out, Superseded);
    FilterMembers(IsVictim(victim), s.queue);
    FilterMembers(HasId(id), out);
    if x :| x in s.queue && x.id == id && victim(x.coalesceKey) {
      assert x in out && x in Filter(HasId(id), out);
    }
    if Filter(HasId(id), out) != [] {
      assert Filter(HasId(id), out)[0] in out;
    }
  }

  lemma ClearSettles(s: State, id: nat, how: Settlement)
    requires id !in s.settled
    ensures (id in ClearStep(s).settled && ClearStep(s).settled[id] == how) <==>
      how == QueueCleared && (IsQueued(s, id) || (s.inFlight.Some? && s.inFlight.value.id == id))
  {
    var first := if s.inFlight.Some? then Settle(s.settled, s.inFlight.value.id, QueueCleared) else s.settled;
    SettleAllFacts(first, s.queue, QueueCleared);
    FilterMembers(HasId(id), s.queue);
    if x :| x in s.queue && x.id == id {
      assert x in Filter(HasId(id), s.queue);
    }
    if Filter(HasId(id), s.queue) != [] {
      assert Filter(HasId(id), s.queue)[0] in s.queue;
    }
  }

  /** A promise is settled by a step exactly for the reason the settlement names. */
  lemma SettlementSaysWhy(cfg: Config, s: State, op: Op, now: real, id: nat, how: Settlement)
    requires Inv(cfg, s) && id !in s.settled
    ensures var t := Step(cfg, s, op, now);
      (id in t.settled && t.settled[id] == how) <==> SettlesWith(s, op, id, how)
  {
    match op
    case Enqueue(_, key, _) =>
      if key.Some? {
        EvictSettles(s, Exactly(key), id, how);
      }
    case Drop(victim) => EvictSettles(s, victim, id, how);
    case Clear => ClearSettles(s, id, how);
    case WriteDone(_) =>
  }

  // No starvation

  /** `x` has waited long enough to have reached the floor of the non-emergency bands. */
  ghost predicate Aged(cfg: Config, x: Item, now: real) {
    && x.priority > EMERGENCY_PRIORITY && cfg.agePromotion.Every?
    && now > x.enqueuedAt && now - x.enqueuedAt >= (x.priority - 1) as real * cfg.agePromotion.ms
  }

  /** In band 2 and below the wait alone suffices. */
  lemma WaitedIsAged(cfg: Config, x: Item, now: real)
    requires cfg.agePromotion.Every? && x.priority >= 2
    requires now - x.enqueuedAt >= (x.priority - 1) as real * cfg.agePromotion.ms
    ensures Aged(cfg, x, now)
  {
    assert (x.priority - 1) as real * cfg.agePromotion.ms >= cfg.agePromotion.ms;
  }

  lemma AgedIsAtFloor(cfg: Config, x: Item, now: real)
    requires Aged(cfg, x, now)
    ensures EffectivePriority(cfg, x, now) == NON_EMERGENCY_FLOOR
  {
    PromotionsReach(cfg.agePromotion.ms, now - x.enqueuedAt, x.priority - 1);
  }

  function NotYounger(x: Item): Item -> bool {
    (it: Item) => it.enqueuedAt <= x.enqueuedAt
  }

  /** How many items, `x` among them, are at least as old as `x`. */
  function Ahead(s: State, x: Item): nat {
    |Filter(NotYounger(x), s.queue)|
  }

  function NonEmergency(): Item -> bool {
    (it: Item) => it.priority > EMERGENCY_PRIORITY
  }

  /** How many non-emergency items have been handed to the writer. */
  function NonEmergencyWrites(s: State): nat {
    |Filter(NonEmergency(), s.started)|
  }

  lemma StartNextMakesProgress(cfg: Config, s: State, now: real, x: Item)
    requires x in s.queue && Aged(cfg, x, now)
    ensures var t := StartNext(cfg, s, now);
      Ahead(t, x) + NonEmergencyWrites(t) <= Ahead(s, x) + NonEmergencyWrites(s)
  {
    var le := DrainOrder(cfg, now);
    var sorted := Sorted(cfg, s, now);
    SortedFacts(cfg, s, now);
    SortCount(le, NotYounger(x), s.queue);
    var head := sorted.queue[0];
    FilterConcat(NonEmergency(), s.started, [head]);
    AgedIsAtFloor(cfg, x, now);
    var i :| 0 <= i < |sorted.queue| && sorted.queue[i] == x;
    if i > 0 {
      assert le(head, x);
    }
    assert NonEmergency()(head) ==> NotYounger(x)(head);
  }

  lemma EvictMakesProgress(s: State, victim: Option<string> -> bool, x: Item)
    ensures Ahead(Evict(s, victim), x) + |Filter(NotYounger(x), Filter(IsVictim(victim), s.queue))| == Ahead(s, x)
  {
    FilterSplit(NotYounger(x), IsSpared(victim), IsVictim(victim), s.queue);
  }

  lemma StepMakesProgress(cfg: Config, s: State, tick: Tick, x: Item)
    requires Inv(cfg, s) && x in s.queue && Aged(cfg, x, tick.now)
    requires x in Step(cfg, s, tick.op, tick.now).queue
    ensures var t := Step(cfg, s, tick.op, tick.now);
      Ahead(t, x) + NonEmergencyWrites(t) <= Ahead(s, x) + NonEmergencyWrites(s)
  {
    match tick.op {
      case Enqueue(_, key, _) =>
        var dropped := Supersede(s, key);
        if key.Some? {
          EvictMakesProgress(s, Exactly(key), x);
          var removed := Filter(IsVictim(Exactly(key)), s.queue);
          OldestFacts(removed);
          if removed != [] && Oldest(removed).value <= x.enqueuedAt {
            var oldest :| oldest in removed && oldest.enqueuedAt == Oldest(removed).value;
            FilterMember(NotYounger(x), removed, oldest);
          }
        }
        if Accepts(cfg, s, tick.op) {
          var y := NewItem(s, tick.op, tick.now);
          FilterConcat(NotYounger(x), dropped.queue, [y]);
        }
      case WriteDone(result) =>
        if s.inFlight.Some? {
          StartNextMakesProgress(cfg, FinishWrite(s, result), tick.now, x);
        }
      case Drop(victim) => EvictMakesProgress(s, victim, x);
      case Clear =>
    }
  }

  /** A key has at most one item waiting, so superseding takes out exactly that item. */
  lemma OnlyThatItem(cfg: Config, s: State, x: Item)
    requires Inv(cfg, s) && x in s.queue && x.coalesceKey.Some?
    ensures Filter(IsVictim(Exactly(x.coalesceKey)), s.queue) == [x]
    ensures x.id !in s.settled && s.draining
  {
    var victims := Filter(IsVictim(Exactly(x.coalesceKey)), s.queue);
    SameFilter(HasKey(x.coalesceKey.value), IsVictim(Exactly(x.coalesceKey)), s.queue);
    FilterMember(IsVictim(Exactly(x.coalesceKey)), s.queue, x);
    assert |victims| <= 1 && x in victims;
    FilterMember(HasId(x.id), s.queue, x);
    assert Places(s, x.id) == if x.id < s.nextId then 1 else 0;
  }

  /** A periodic re-send inherits the wait of the item it supersedes: the replacement stands exactly as
      far ahead, so re-sending does not reset the age that the starvation bound rests on. */
  lemma ResendKeepsAge(cfg: Config, s: State, op: Op, now: real, x: Item)
    requires Inv(cfg, s) && op.Enqueue? && op.coalesceKey.Some?
    requires x in s.queue && x.coalesceKey == op.coalesceKey
    ensures var t := Step(cfg, s, op, now);
      var y := Item(s.nextId, op.priority, x.enqueuedAt, op.coalesceKey, op.onWrite);
      y in t.queue && Ahead(t, y) == Ahead(s, x) && x.id in t.settled && t.settled[x.id] == Superseded
  {
    var key := op.coalesceKey;
    OnlyThatItem(cfg, s, x);
    assert [x][..0] == [];
    assert Oldest([x]) == Some(x.enqueuedAt);
    FilterLengths(IsSpared(Exactly(key)), IsVictim(Exactly(key)), s.queue);
    EvictMakesProgress(s, Exactly(key), x);
    var dropped := Supersede(s, key);
    var y := NewItem(s, op, now);
    FilterConcat(NotYounger(x), dropped.queue, [y]);
    SameFilter(NotYounger(x), NotYounger(y), dropped.queue + [y]);
    SettleAllFacts(s.settled, [x], Superseded);
  }

  lemma {:induction false} SameFilter<T>(p: T -> bool, q: T -> bool, s: seq<T>)
    requires forall x :: x in s ==> (p(x) <==> q(x))
    ensures Filter(p, s) == Filter(q, s)
  {
    if s != [] {
      SameFilter(p, q, s[1..]);
    }
  }

  /** `x` waits through the whole run. */
  ghost predicate WaitsThroughout(cfg: Config, s: State, ticks: seq<Tick>, x: Item)
  {
    forall k :: 0 <= k <= |ticks| ==> x in Run(cfg, s, ticks[..k]).queue
  }

  /** No starvation: once `x` has aged to the non-emergency floor, every non-emergency write made
      before it uses up one of the items at least as old as `x`, and nothing ever adds to those. */
  lemma {:induction false} AgedItemIsNotStarved(cfg: Config, s: State, ticks: seq<Tick>, start: real, x: Item)
    requires Inv(cfg, s) && ClockNeverBackwards(start, ticks)
    requires Aged(cfg, x, start) && WaitsThroughout(cfg, s, ticks, x)
    ensures var t := Run(cfg, s, ticks);
      && Inv(cfg, t) && 1 <= Ahead(t, x)
      && NonEmergencyWrites(t) - NonEmergencyWrites(s) <= Ahead(s, x) - Ahead(t, x)
  {
    var t := Run(cfg, s, ticks);
    assert ticks[..|ticks|] == ticks;
    assert x in t.queue;
    FilterMember(NotYounger(x), t.queue, x);
    if ticks != [] {
      var before := ticks[..|ticks| - 1];
      var last := ticks[|ticks| - 1];
      forall k | 0 <= k <= |before| ensures x in Run(cfg, s, before[..k]).queue {
        assert before[..k] == ticks[..k];
      }
      AgedItemIsNotStarved(cfg, s, before, start, x);
      assert before[..|before|] == before;
      StepKeepsInv(cfg, Run(cfg, s, before), last.op, last.now);
      StepMakesProgress(cfg, Run(cfg, s, before), last, x);
    }
  }

  /** From any reachable queue: an item of band 2 or more that has waited (band - 1) promotion periods sees at
      most as many non-emergency writes before its own as there are other items at least as old. */
  lemma WaitingItemIsNotStarved(cfg: Config, before: seq<Tick>, ticks: seq<Tick>, start: real, x: Item)
    requires ClockNeverBackwards(start, ticks) && WaitsThroughout(cfg, Run(cfg, Initial, before), ticks, x)
    requires cfg.agePromotion.Every? && x.priority >= 2
    requires start - x.enqueuedAt >= (x.priority - 1) as real * cfg.agePromotion.ms
    ensures var s := Run(cfg, Initial, before);
      NonEmergencyWrites(Run(cfg, s, ticks)) - NonEmergencyWrites(s) <= Ahead(s, x) - 1
  {
    RunKeepsInv(cfg, before);
    WaitedIsAged(cfg, x, start);
    AgedItemIsNotStarved(cfg, Run(cfg, Initial, before), ticks, start, x);
  }

  /** The queue object.  Each method does exactly one step of the model, so `RunKeepsInv`
      and the theorems on order and starvation speak about every use of the object. */
  class OutboundQueue {
    const cfg: Config
    var queue: seq<Item>
    var draining: bool
    var inFlight: Option<Item>
    var cleared: bool
    var settled: map<nat, Settlement>
    var started: seq<Item>
    var fired: seq<nat>
    var nextId: nat

    ghost function Abs(): State
      reads this
    {
      State(queue, draining, inFlight, cleared, settled, started, fired, nextId)
    }

    /** Anything but a positive bound or a positive promotion interval falls back to the default. */
    constructor (maxLength: Option<int>, agePromotion: Option<AgePromotion>)
      ensures Abs() == Initial
      ensures cfg.maxLength == if maxLength.Some? && maxLength.value > 0 then maxLength.value else 1000
      ensures agePromotion.Some? && (agePromotion.value.Every? ==> agePromotion.value.ms > 0.0)
              ==> cfg.agePromotion == agePromotion.value
      ensures agePromotion.None? || (agePromotion.value.Every? && agePromotion.value.ms <= 0.0)
              ==> cfg.agePromotion == Every(2000.0)
    {
      var length := if maxLength.Some? && maxLength.value > 0 then maxLength.value else 1000;
      var age := if agePromotion.Some? && (agePromotion.value.Every? ==> agePromotion.value.ms > 0.0)
                 then agePromotion.value else Every(2000.0);
      cfg := Options(length, age);
      queue, draining, inFlight, cleared := [], false, None, false;
      settled, started, fired, nextId := map[], [], [], 0;
    }

    method SettlePromise(id: nat, how: Settlement)
      modifies `settled
      ensures settled == Settle(old(settled), id, how)
    {
      if id !in settled {
        settled := settled[id := how];
      }
    }

    method SettlePromises(items: seq<Item>, how: Settlement)
      modifies `settled
      ensures settled == SettleAll(old(settled), items, how)
    {
      for k := 0 to |items|
        invariant settled == SettleAll(old(settled), items[..k], how)
      {
        assert items[..k + 1][..k] == items[..k];
        SettlePromise(items[k].id, how);
      }
      assert items[..|items|] == items;
    }

    /** Takes the matching items out, back to front, without settling them. */
    method RemoveMatching(victim: Option<string> -> bool) returns (removed: seq<Item>)
      modifies `queue
      ensures queue == Filter(IsSpared(victim), old(queue))
      ensures removed == Filter(IsVictim(victim), old(queue))
    {
      removed := [];
      var i := |queue|;
      while i > 0
        invariant 0 <= i <= |old(queue)|
        invariant queue == old(queue)[..i] + Filter(IsSpared(victim), old(queue)[i..])
        invariant removed == Filter(IsVictim(victim), old(queue)[i..])
      {
        i := i - 1;
        assert old(queue)[i..] == [old(queue)[i]] + old(queue)[i + 1..];
        if victim(queue[i].coalesceKey) {
          removed := [queue[i]] + removed;
          queue := queue[..i] + queue[i + 1..];
        }
      }
    }

    method DropSuperseded(key: Option<string>) returns (inheritedAt: Option<real>)
      requires key.Some?
      modifies `queue, `settled
      ensures Abs() == Supersede(old(Abs()), key)
      ensures inheritedAt == InheritedAt(old(Abs()), key)
    {
      var removed := RemoveMatching(Exactly(key));
      inheritedAt := None;
      for k := 0 to |removed|
        invariant queue == Filter(IsSpared(Exactly(key)), old(queue))
        invariant inheritedAt == Oldest(removed[..k])
        invariant settled == SettleAll(old(settled), removed[..k], Superseded)
      {
        assert removed[..k + 1][..k] == removed[..k];
        if inheritedAt.None? || removed[k].enqueuedAt < inheritedAt.value {
          inheritedAt := Some(removed[k].enqueuedAt);
        }
        SettlePromise(removed[k].id, Superseded);
      }
      assert removed[..|removed|] == removed;
    }

    /** `dropCoalescedMatching`, and `dropCoalesced` with `Exactly(Some(key))`. */
    method DropCoalesced(victim: Option<string> -> bool) returns (dropped: nat)
      modifies this
      ensures Abs() == Step(cfg, old(Abs()), Drop(victim), 0.0)
      ensures dropped == |Filter(IsVictim(victim), old(queue))|
    {
      var removed := RemoveMatching(victim);
      SettlePromises(removed, Superseded);
      dropped := |removed|;
    }

    /** One pass through the head of the drain loop. */
    method StartWrite(now: real)
      modifies this
      ensures Abs() == StartNext(cfg, old(Abs()), now)
    {
      queue := Sort(DrainOrder(cfg, now), queue);
      if queue == [] {
        draining, inFlight, cleared := false, None, false;
      } else {
        inFlight, queue := Some(queue[0]), queue[1..];
        draining, cleared := true, false;
        started := started + [inFlight.value];
      }
    }

    method EnqueueBuffer(priority: int, coalesceKey: Option<string>, onWrite: bool, now: real) returns (accepted: bool)
      modifies this
      ensures Abs() == Step(cfg, old(Abs()), Enqueue(priority, coalesceKey, onWrite), now)
      ensures accepted == Accepts(cfg, old(Abs()), Enqueue(priority, coalesceKey, onWrite))
    {
      var inheritedAt := None;
      if coalesceKey.Some? {
        inheritedAt := DropSuperseded(coalesceKey);
      }
      if |queue| >= cfg.maxLength {
        return false;
      }
      var at := if inheritedAt.Some? then inheritedAt.value else now;
      queue := queue + [Item(nextId, priority, at, coalesceKey, onWrite)];
      nextId := nextId + 1;
      if !draining {
        StartWrite(now);
      }
      return true;
    }

    /** The writer's promise settled: run the rest of the loop body, then the head of the loop again. */
    method OnWriteSettled(result: WriteResult, now: real)
      requires inFlight.Some?
      modifies this
      ensures Abs() == Step(cfg, old(Abs()), WriteDone(result), now)
    {
      var item := inFlight.value;
      if result.WriteFails? {
        SettlePromise(item.id, WriterFailed);
      } else if item.onWrite && !cleared {
        fired := fired + [item.id];
        SettlePromise(item.id, if result.HookFails? then HookThrew else Written);
      } else {
        SettlePromise(item.id, Written);
      }
      inFlight, cleared := None, false;
      StartWrite(now);
    }

    method ClearAll()
      modifies this
      ensures Abs() == Step(cfg, old(Abs()), Clear, 0.0)
    {
      var pending := queue;
      queue := [];
      if inFlight.Some? {
        cleared := true;
        SettlePromise(inFlight.value.id, QueueCleared);
      }
      SettlePromises(pending, QueueCleared);
    }
  }
}
