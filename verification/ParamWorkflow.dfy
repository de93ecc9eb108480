/** Reading a vehicle's whole parameter list over a lossy link: the stream is assembled by index, and once
    it stalls the gaps are asked for one by one. */
module ParamLists {
  import opened Wrappers
  import opened StableSorting
  import MC = MavlinkCodec

  /** The index of values that are not part of a list. */
  const PARAM_INDEX_NONE := 65535

  /** An absent component is one that is not a number. */
  datatype Config = Config(targetSystem: int, targetComponent: Option<int>, maxRetries: nat)

  /** A decoded PARAM_VALUE.  `intType` is present for the six integer types of the byte union, `bits` are the
      exact wire bits of the value. */
  datatype ParamValue = ParamValue(
    sysid: int, compid: Option<int>, index: int, count: Option<int>,
    id: string, value: real, intType: Option<MC.IntType>, bits: MC.Word32)

  datatype Reading = Plain(value: real) | Whole(number: int)

  datatype Param = Param(index: int, id: string, reading: Reading)

  function Project(f: ParamValue, bytewise: bool): Param {
    Param(f.index, f.id,
          if bytewise && f.intType.Some? then Whole(MC.UnionBitsToInt(f.bits, f.intType.value)) else Plain(f.value))
  }

  function ProjectAll(fs: seq<ParamValue>, bytewise: bool): (r: seq<Param>)
    ensures |r| == |fs| && forall i :: 0 <= i < |fs| ==> r[i] == Project(fs[i], bytewise)
  {
    seq(|fs|, i requires 0 <= i < |fs| => Project(fs[i], bytewise))
  }

  datatype Frame = RequestList | RequestRead(index: nat)

  datatype Error = ParamTimeout | SendFailed | Aborted

  datatype Outcome = Listed(count: int, params: seq<Param>) | Failure(error: Error)

  /** `received` keeps the order of arrival, one entry per index. */
  datatype State = State(
    count: Option<int>, received: seq<ParamValue>, retries: nat, settled: Option<Outcome>, subscribed: bool,
    timer: bool, outstanding: nat, sent: seq<Frame>)

  /** `bytewise` is what the vehicle's capabilities say at the moment of the event. */
  datatype Event =
    ValueArrives(value: ParamValue, bytewise: bool) | SendDone | SendFails | TimerFires(bytewise: bool) | Abort

  // Handlers

  function Fail(s: State, error: Error): State {
    if s.settled.Some? then s else s.(settled := Some(Failure(error)), subscribed := false, timer := false)
  }

  function ByIndex(): (Param, Param) -> bool {
    (a: Param, b: Param) => a.index <= b.index
  }

  function Finish(s: State, bytewise: bool): State {
    if s.settled.Some? then s
    else
      var params := Sort(ByIndex(), ProjectAll(s.received, bytewise));
      s.(settled := Some(Listed(if s.count.Some? then s.count.value else |params|, params)),
         subscribed := false, timer := false)
  }

  function Put(s: State, frame: Frame): State {
    s.(sent := s.sent + [frame], outstanding := s.outstanding + 1)
  }

  const Start := State(None, [], 0, None, true, false, 1, [RequestList])

  predicate Has(received: seq<ParamValue>, index: int) {
    exists i :: 0 <= i < |received| && received[i].index == index
  }

  /** The lowest index from `i` on that is still missing. */
  function FirstMissing(received: seq<ParamValue>, i: nat, count: int): Option<nat>
    decreases count - i
  {
    if i >= count then None else if Has(received, i) then FirstMissing(received, i + 1, count) else Some(i)
  }

  predicate FromTarget(c: Config, f: ParamValue) {
    && f.sysid == c.targetSystem
    && (c.targetComponent.None? || c.targetComponent == Some(0) || f.compid.None? || f.compid == c.targetComponent)
  }

  function OnValue(c: Config, s: State, f: ParamValue, bytewise: bool): State {
    if !FromTarget(c, f) || f.index == PARAM_INDEX_NONE then s
    else
      var counted := if f.count.Some? then s.(count := f.count) else s;
      var taken := if Has(s.received, f.index) then counted else counted.(received := s.received + [f], retries := 0);
      if taken.count.Some? && |taken.received| >= taken.count.value then Finish(taken, bytewise)
      else taken.(timer := true)
  }

  function OnStall(s: State, bytewise: bool): State {
    if s.count.None? then Put(s, RequestList)
    else
      var missing := FirstMissing(s.received, 0, s.count.value);
      if missing.None? then Finish(s, bytewise) else Put(s, RequestRead(missing.value))
  }

  function OnTimeout(c: Config, s: State, bytewise: bool): State {
    var fired := s.(timer := false);
    if s.settled.Some? then fired
    else if s.retries >= c.maxRetries then Fail(fired, ParamTimeout)
    else OnStall(fired.(retries := s.retries + 1), bytewise)
  }

  predicate Enabled(s: State, e: Event) {
    match e
    case ValueArrives(_, _) => s.subscribed
    case SendDone => s.outstanding > 0
    case SendFails => s.outstanding > 0
    case TimerFires(_) => s.timer
    case Abort => true
  }

  /** An event that is not possible in the state changes nothing.  A completed send arms the timer even if the
      workflow has settled meanwhile. */
  function Step(c: Config, s: State, e: Event): State {
    if !Enabled(s, e) then s
    else match e
      case ValueArrives(f, bytewise) => OnValue(c, s, f, bytewise)
      case SendDone => s.(outstanding := s.outstanding - 1, timer := true)
      case SendFails => Fail(s.(outstanding := s.outstanding - 1), SendFailed)
      case TimerFires(bytewise) => OnTimeout(c, s, bytewise)
      case Abort => Fail(s, Aborted)
  }

  function Run(c: Config, events: seq<Event>): State {
    if events == [] then Start else Step(c, Run(c, events[..|events| - 1]), events[|events| - 1])
  }

  // Why a list ends, and what it sends

  /** A value of the vehicle's list arrives. */
  predicate Heard(c: Config, s: State, e: Event) {
    s.settled.None? && e.ValueArrives? && FromTarget(c, e.value) && e.value.index != PARAM_INDEX_NONE
  }

  /** How often the timer has fired since the last new value, or since the start. */
  function Silences(c: Config, events: seq<Event>): nat {
    if events == [] then 0
    else
      var before, e := events[..|events| - 1], events[|events| - 1];
      if Heard(c, Run(c, before), e) && !Has(Run(c, before).received, e.value.index) then 0
      else Silences(c, before) + if e.TimerFires? && Run(c, before).timer then 1 else 0
  }

  /** The values received once the event has been heard. */
  function With(c: Config, s: State, e: Event): seq<ParamValue> {
    if Heard(c, s, e) && !Has(s.received, e.value.index) then s.received + [e.value] else s.received
  }

  /** The number of parameters the vehicle named last. */
  function Named(c: Config, s: State, e: Event): Option<int> {
    if Heard(c, s, e) && e.value.count.Some? then e.value.count else s.count
  }

  predicate Repeats(c: Config, s: State, silences: nat, e: Event) {
    s.settled.None? && e.TimerFires? && s.timer && silences < c.maxRetries
  }

  ghost predicate NoneMissing(s: State) {
    s.count.Some? && forall k :: 0 <= k < s.count.value ==> Has(s.received, k)
  }

  /** What it takes for the event to end the running list with this outcome. */
  ghost predicate Causes(c: Config, s: State, silences: nat, e: Event, o: Outcome) {
    match o
    case Listed(count, params) =>
      && (|| (Heard(c, s, e) && Named(c, s, e).Some? && |With(c, s, e)| >= Named(c, s, e).value)
          || (Repeats(c, s, silences, e) && NoneMissing(s)))
      && (e.ValueArrives? || e.TimerFires?) && Named(c, s, e) == Some(count)
      && params == Sort(ByIndex(), ProjectAll(With(c, s, e), e.bytewise))
    case Failure(ParamTimeout) => e.TimerFires? && s.timer && silences == c.maxRetries
    case Failure(SendFailed) => e == SendFails && s.outstanding > 0
    case Failure(Aborted) => e == Abort
  }

  /** The frame that the event makes the list send: the list request once more, or the request for the lowest index
      that is missing. */
  ghost predicate Sends(c: Config, s: State, silences: nat, e: Event, f: Frame) {
    && Repeats(c, s, silences, e)
    && match f
       case RequestList => s.count.None?
       case RequestRead(k) =>
         s.count.Some? && k < s.count.value && !Has(s.received, k) && forall j :: 0 <= j < k ==> Has(s.received, j)
  }

  predicate EndsSend(e: Event) {
    e == SendDone || e == SendFails
  }

  /** How many sends have ended. */
  function Ended(c: Config, events: seq<Event>): nat {
    if events == [] then 0
    else
      var before := events[..|events| - 1];
      var ended := Ended(c, before);
      if EndsSend(events[|events| - 1]) && ended < |Run(c, before).sent| then ended + 1 else ended
  }

  /** The timer runs: it was started by a completed send or a value, and neither fired nor was stopped by the end of the
      list since.  A send that completes later still starts it. */
  predicate Armed(c: Config, events: seq<Event>) {
    if events == [] then false
    else
      var before, e := events[..|events| - 1], events[|events| - 1];
      if e == SendDone && Ended(c, before) < |Run(c, before).sent| then true
      else if Run(c, before).settled.None? && Run(c, events).settled.Some? then false
      else if Heard(c, Run(c, before), e) then true
      else if e.TimerFires? then false
      else Armed(c, before)
  }

  /** The sends awaited and the timer are what the events say. */
  ghost predicate Waits(c: Config, events: seq<Event>) {
    && Run(c, events).outstanding + Ended(c, events) == |Run(c, events).sent|
    && (Run(c, events).timer <==> Armed(c, events))
  }

  lemma StepOutstanding(c: Config, s: State, e: Event)
    ensures var t := Step(c, s, e);
      t.outstanding + (if EndsSend(e) && s.outstanding > 0 then 1 else 0) + |s.sent| == s.outstanding + |t.sent|
  {
  }

  lemma StepTimer(c: Config, s: State, e: Event)
    requires s.subscribed <==> s.settled.None?
    ensures var t := Step(c, s, e);
      t.timer <==>
        if e == SendDone && s.outstanding > 0 then true
        else if s.settled.None? && t.settled.Some? then false
        else if Heard(c, s, e) then true
        else !e.TimerFires? && s.timer
  {
  }

  lemma WaitsNext(c: Config, events: seq<Event>)
    requires events != [] && Waits(c, events[..|events| - 1])
    requires Run(c, events[..|events| - 1]).subscribed <==> Run(c, events[..|events| - 1]).settled.None?
    ensures Waits(c, events)
  {
    StepOutstanding(c, Run(c, events[..|events| - 1]), events[|events| - 1]);
    StepTimer(c, Run(c, events[..|events| - 1]), events[|events| - 1]);
  }

  lemma {:induction false} RunWaits(c: Config, events: seq<Event>)
    ensures Waits(c, events)
  {
    if events != [] {
      RunWaits(c, events[..|events| - 1]);
      RunCounts(c, events[..|events| - 1]);
      WaitsNext(c, events);
    }
  }

  ghost predicate Counts(c: Config, s: State, silences: nat) {
    && (s.subscribed <==> s.settled.None?)
    && (s.settled.None? ==> s.retries == silences <= c.maxRetries && (s.timer || s.outstanding > 0))
  }

  lemma StepCounts(c: Config, s: State, silences: nat, e: Event)
    requires Counts(c, s, silences)
    ensures Counts(c, Step(c, s, e),
      if Heard(c, s, e) && !Has(s.received, e.value.index) then 0
      else silences + if e.TimerFires? && s.timer then 1 else 0)
  {
  }

  lemma {:induction false} RunCounts(c: Config, events: seq<Event>)
    ensures Counts(c, Run(c, events), Silences(c, events))
  {
    if events != [] {
      var before := events[..|events| - 1];
      RunCounts(c, before);
      StepCounts(c, Run(c, before), Silences(c, before), events[|events| - 1]);
    }
  }

  lemma ValueSettles(c: Config, s: State, silences: nat, e: Event, o: Outcome)
    requires s.settled.None? && Counts(c, s, silences) && e.ValueArrives?
    ensures Step(c, s, e).settled == Some(o) <==> Causes(c, s, silences, e, o)
  {
    if Heard(c, s, e) {
      var t := OnValue(c, s, e.value, e.bytewise);
      assert t.received == With(c, s, e) && t.count == Named(c, s, e);
    }
  }

  lemma TimeoutSettles(c: Config, s: State, silences: nat, e: Event, o: Outcome)
    requires s.settled.None? && Counts(c, s, silences) && e.TimerFires?
    ensures Step(c, s, e).settled == Some(o) <==> Causes(c, s, silences, e, o)
  {
    if s.count.Some? {
      FirstMissingFacts(s.received, 0, s.count.value);
    }
  }

  lemma SettlesOnCause(c: Config, s: State, silences: nat, e: Event, o: Outcome)
    requires s.settled.None? && Counts(c, s, silences)
    ensures Step(c, s, e).settled == Some(o) <==> Causes(c, s, silences, e, o)
  {
    if e.ValueArrives? {
      ValueSettles(c, s, silences, e, o);
    } else if e.TimerFires? {
      TimeoutSettles(c, s, silences, e, o);
    }
  }

  /** Whose values count: those of the target system, and of its component unless any may answer or none is named. */
  lemma SourceTells(c: Config, f: ParamValue)
    ensures !FromTarget(c, f) <==>
      || f.sysid != c.targetSystem
      || (c.targetComponent.Some? && c.targetComponent.value != 0 && f.compid.Some? && f.compid != c.targetComponent)
  {
  }

  lemma StepSends(c: Config, s: State, silences: nat, e: Event, f: Frame)
    requires Counts(c, s, silences)
    ensures Step(c, s, e).sent == s.sent + [f] <==> Sends(c, s, silences, e, f)
    ensures Step(c, s, e).sent == s.sent || exists g :: Step(c, s, e).sent == s.sent + [g]
  {
    if s.count.Some? {
      FirstMissingFacts(s.received, 0, s.count.value);
    }
    var t := Step(c, s, e);
    if t.sent != s.sent {
      assert t.sent == s.sent + [t.sent[|s.sent|]];
      assert (s.sent + [f])[|s.sent|] == f;
    }
  }

  /** In every run an event sends nothing or the one frame that it calls for. */
  lemma EveryFrameIsCalledFor(c: Config, events: seq<Event>, e: Event, f: Frame)
    ensures var s, t := Run(c, events), Run(c, events + [e]);
      && (t.sent == s.sent + [f] <==> Sends(c, s, Silences(c, events), e, f))
      && (t.sent == s.sent || exists g :: t.sent == s.sent + [g])
  {
    assert (events + [e])[..|events|] == events;
    RunCounts(c, events);
    StepSends(c, Run(c, events), Silences(c, events), e, f);
  }

  /** The k-th event finds the list running and ends it with this outcome. */
  ghost predicate DecidedBy(c: Config, events: seq<Event>, k: nat, o: Outcome) {
    && k < |events| && Run(c, events[..k]).settled.None?
    && Causes(c, Run(c, events[..k]), Silences(c, events[..k]), events[k], o)
  }

  ghost predicate Decided(c: Config, events: seq<Event>, o: Outcome) {
    exists k: nat :: DecidedBy(c, events, k, o)
  }

  lemma DecidedEarlier(c: Config, events: seq<Event>, k: nat, o: Outcome)
    requires k < |events| - 1
    ensures DecidedBy(c, events, k, o) <==> DecidedBy(c, events[..|events| - 1], k, o)
  {
    assert events[..|events| - 1][..k] == events[..k];
  }

  lemma DecidedNext(c: Config, events: seq<Event>, o: Outcome)
    requires events != []
    ensures Decided(c, events, o) <==>
      Decided(c, events[..|events| - 1], o) || DecidedBy(c, events, |events| - 1, o)
  {
    if Decided(c, events, o) {
      var k: nat :| DecidedBy(c, events, k, o);
      if k < |events| - 1 {
        DecidedEarlier(c, events, k, o);
      }
    }
    if Decided(c, events[..|events| - 1], o) {
      var k: nat :| DecidedBy(c, events[..|events| - 1], k, o);
      DecidedEarlier(c, events, k, o);
    }
  }

  lemma SettledStays(c: Config, s: State, e: Event)
    requires s.settled.Some? && !s.subscribed
    ensures Step(c, s, e).settled == s.settled
  {
  }

  /** The outcome of a list is the first thing that decides it: listed when as many values as the vehicle named have
      arrived, or when a silent vehicle turns out to have sent all; timed out by the silence after `maxRetries`
      others; or failed by a send or an abort.  One integer convention covers the whole list, that of its end. */
  lemma {:induction false} OutcomeSaysWhy(c: Config, events: seq<Event>, o: Outcome)
    ensures Run(c, events).settled == Some(o) <==> Decided(c, events, o)
  {
    if events != [] {
      var before, e := events[..|events| - 1], events[|events| - 1];
      OutcomeSaysWhy(c, before, o);
      DecidedNext(c, events, o);
      RunCounts(c, before);
      if Run(c, before).settled.None? {
        SettlesOnCause(c, Run(c, before), Silences(c, before), e, o);
      } else {
        SettledStays(c, Run(c, before), e);
      }
    }
  }

  /** The bits that arrived are the byte union of the integer. */
  predicate CarriesInt(f: ParamValue, v: int, t: MC.IntType) {
    MC.InRange(v, t) && f.bits == MC.UnionIntToBits(v, t)
  }

  /** Which reading a value gets: the integer whose byte union arrived if the list is read bytewise and the type is an
      integer type, and the plain number otherwise. */
  lemma ReadingTells(f: ParamValue, bytewise: bool, v: int)
    ensures Project(f, bytewise).index == f.index && Project(f, bytewise).id == f.id
    ensures bytewise && f.intType.Some? && CarriesInt(f, v, f.intType.value) ==>
      Project(f, bytewise).reading == Whole(v)
    ensures !bytewise || f.intType.None? ==> Project(f, bytewise).reading == Plain(f.value)
  {
    if bytewise && f.intType.Some? && MC.InRange(v, f.intType.value) {
      MC.UnionRoundTrip(v, f.intType.value);
    }
  }

  // A vehicle with n parameters

  /** The vehicle always reports `n`, and only indices below it or the no-index sentinel. */
  ghost predicate Truthful(c: Config, n: nat, e: Event) {
    e.ValueArrives? && FromTarget(c, e.value) ==>
      e.value.count == Some(n) && (0 <= e.value.index < n || e.value.index == PARAM_INDEX_NONE)
  }

  ghost predicate VehicleHas(c: Config, n: nat, events: seq<Event>) {
    forall e :: e in events ==> Truthful(c, n, e)
  }

  ghost predicate DistinctBelow(received: seq<ParamValue>, n: nat) {
    && (forall i :: 0 <= i < |received| ==> 0 <= received[i].index < n)
    && (forall i, j :: 0 <= i < j < |received| ==> received[i].index != received[j].index)
  }

  /** The completed list: position i holds parameter i, decoded from a value that arrived, and one integer
      convention covers the whole list. */
  ghost predicate IsWholeList(received: seq<ParamValue>, n: nat, params: seq<Param>) {
    |params| == n && exists bytewise :: ListsAll(received, params, bytewise)
  }

  ghost predicate ListsAll(received: seq<ParamValue>, params: seq<Param>, bytewise: bool) {
    forall i :: 0 <= i < |params| ==>
      params[i].index == i && exists f :: f in received && params[i] == Project(f, bytewise)
  }

  ghost predicate Progress(c: Config, n: nat, s: State) {
    && DistinctBelow(s.received, n)
    && (s.subscribed <==> s.settled.None?)
    && (s.count.None? || s.count == Some(n)) && (s.received != [] ==> s.count == Some(n))
    && s.retries <= c.maxRetries
    && (s.settled.None? ==> |s.received| < n || (n == 0 && s.received == [] && s.count.None?))
    && |s.sent| <= 1 + Budget(c.maxRetries, |s.received|) + s.retries
    && (s.settled.Some? && |s.received| == n > 0 ==> |s.sent| <= 1 + Budget(c.maxRetries, n))
    && (s.settled.Some? && s.settled.value.Listed? ==>
        s.settled.value.count == n && IsWholeList(s.received, n, s.settled.value.params))
  }

  /** `maxRetries` requests for each value received. */
  function Budget(maxRetries: nat, received: nat): nat {
    if received == 0 then 0 else Budget(maxRetries, received - 1) + maxRetries
  }

  lemma {:induction false} BudgetIsProduct(maxRetries: nat, received: nat)
    ensures Budget(maxRetries, received) == maxRetries * received
  {
    if received > 0 {
      BudgetIsProduct(maxRetries, received - 1);
      assert maxRetries * received == maxRetries * (received - 1) + maxRetries;
    }
  }

  function AtIndex(k: int): Param -> bool {
    (p: Param) => p.index == k
  }

  /** Sorting by index puts distinct indices in strictly increasing order. */
  lemma SortedStrictly(received: seq<ParamValue>, n: nat, bytewise: bool)
    requires DistinctBelow(received, n)
    ensures var params := Sort(ByIndex(), ProjectAll(received, bytewise));
      forall i, j :: 0 <= i < j < |params| ==> params[i].index < params[j].index
  {
    var plain := ProjectAll(received, bytewise);
    var params := Sort(ByIndex(), plain);
    SortFacts(ByIndex(), plain);
    forall i, j | 0 <= i < j < |params| ensures params[i].index < params[j].index {
      assert ByIndex()(params[i], params[j]);
      var k := params[i].index;
      SortCount(ByIndex(), AtIndex(k), plain);
      AtMostOne(AtIndex(k), plain);
      AtMostOne(AtIndex(k), params);
    }
  }

  lemma SortedMembers(received: seq<ParamValue>, bytewise: bool)
    ensures var params := Sort(ByIndex(), ProjectAll(received, bytewise));
      |params| == |received| && forall p :: p in params ==> exists f :: f in received && p == Project(f, bytewise)
  {
    var plain := ProjectAll(received, bytewise);
    SortFacts(ByIndex(), plain);
    forall p | p in Sort(ByIndex(), plain) ensures exists f :: f in received && p == Project(f, bytewise) {
      var i :| 0 <= i < |plain| && plain[i] == p;
      assert received[i] in received;
    }
  }

  lemma {:induction false} AtLeastItsPosition(params: seq<Param>, i: nat)
    requires i < |params| && params[0].index >= 0
    requires forall i, j :: 0 <= i < j < |params| ==> params[i].index < params[j].index
    ensures params[i].index >= i
  {
    if i > 0 {
      AtLeastItsPosition(params, i - 1);
    }
  }

  lemma {:induction false} AtMostItsPosition(params: seq<Param>, n: nat, i: nat)
    requires i < |params| == n && params[n - 1].index < n
    requires forall i, j :: 0 <= i < j < |params| ==> params[i].index < params[j].index
    ensures params[i].index <= i
    decreases n - i
  {
    if i < n - 1 {
      AtMostItsPosition(params, n, i + 1);
    }
  }

  /** No more than `n` distinct indices fit below `n`, and `n` of them are all of them. */
  lemma Pigeonhole(received: seq<ParamValue>, n: nat, bytewise: bool)
    requires DistinctBelow(received, n)
    ensures |received| <= n
    ensures |received| == n ==> IsWholeList(received, n, Sort(ByIndex(), ProjectAll(received, bytewise)))
  {
    var params := Sort(ByIndex(), ProjectAll(received, bytewise));
    SortedStrictly(received, n, bytewise);
    SortedMembers(received, bytewise);
    forall p | p in params ensures 0 <= p.index < n {
      var f :| f in received && p == Project(f, bytewise);
      var i :| 0 <= i < |received| && received[i] == f;
    }
    if |params| > 0 {
      assert params[0] in params && params[|params| - 1] in params;
      AtLeastItsPosition(params, |params| - 1);
    }
    if |received| == n {
      forall i | 0 <= i < n
        ensures params[i].index == i && exists f :: f in received && params[i] == Project(f, bytewise)
      {
        AtLeastItsPosition(params, i);
        AtMostItsPosition(params, n, i);
        assert params[i] in params;
      }
      assert ListsAll(received, params, bytewise);
    }
  }

  lemma {:induction false} FirstMissingFacts(received: seq<ParamValue>, i: nat, count: int)
    ensures var m := FirstMissing(received, i, count);
      if m.Some? then
        i <= m.value < count && !Has(received, m.value) && forall k :: i <= k < m.value ==> Has(received, k)
      else forall k :: i <= k < count ==> Has(received, k)
    decreases count - i
  {
    if i < count && Has(received, i) {
      FirstMissingFacts(received, i + 1, count);
    }
  }

  lemma ValueKeepsProgress(c: Config, n: nat, s: State, f: ParamValue, bytewise: bool)
    requires Progress(c, n, s) && s.settled.None? && Truthful(c, n, ValueArrives(f, bytewise))
    ensures Progress(c, n, OnValue(c, s, f, bytewise))
  {
    if FromTarget(c, f) && f.index != PARAM_INDEX_NONE && !Has(s.received, f.index) {
      var received := s.received + [f];
      assert DistinctBelow(received, n);
      Pigeonhole(received, n, bytewise);
    }
  }

  lemma TimeoutKeepsProgress(c: Config, n: nat, s: State, bytewise: bool)
    requires Progress(c, n, s)
    ensures Progress(c, n, OnTimeout(c, s, bytewise))
  {
    if s.settled.None? && s.retries < c.maxRetries && s.count.Some? {
      FirstMissingFacts(s.received, 0, n);
      if FirstMissing(s.received, 0, n).None? {
        AllPresent(s.received, n);
      }
    }
  }

  function Indices(received: seq<ParamValue>): set<int> {
    set f | f in received :: f.index
  }

  lemma {:induction false} IndicesAreFew(received: seq<ParamValue>)
    ensures |Indices(received)| <= |received|
  {
    if received != [] {
      var init, last := received[..|received| - 1], received[|received| - 1];
      IndicesAreFew(init);
      assert received == init + [last];
      assert Indices(received) == Indices(init) + {last.index};
    }
  }

  function Below(n: nat): (r: set<int>)
    ensures |r| == n && forall k :: k in r <==> 0 <= k < n
  {
    if n == 0 then {} else Below(n - 1) + {n - 1}
  }

  /** A list with every index below `n` has at least `n` entries. */
  lemma AllPresent(received: seq<ParamValue>, n: nat)
    requires forall k :: 0 <= k < n ==> Has(received, k)
    ensures |received| >= n
  {
    forall k | k in Below(n) ensures k in Indices(received) {
      assert Has(received, k);
      var i :| 0 <= i < |received| && received[i].index == k;
      assert received[i] in received;
    }
    var rest := Indices(received) - Below(n);
    assert Indices(received) == Below(n) + rest;
    IndicesAreFew(received);
  }

  lemma StepKeepsProgress(c: Config, n: nat, s: State, e: Event)
    requires Progress(c, n, s) && Truthful(c, n, e)
    ensures Progress(c, n, Step(c, s, e))
  {
    match e {
      case ValueArrives(f, bytewise) =>
        if s.subscribed {
          ValueKeepsProgress(c, n, s, f, bytewise);
        }
      case TimerFires(bytewise) => TimeoutKeepsProgress(c, n, s, bytewise);
      case _ =>
    }
  }

  lemma {:induction false} RunKeepsProgress(c: Config, n: nat, events: seq<Event>)
    requires VehicleHas(c, n, events)
    ensures Progress(c, n, Run(c, events))
  {
    if events != [] {
      RunKeepsProgress(c, n, events[..|events| - 1]);
      assert events[|events| - 1] in events;
      StepKeepsProgress(c, n, Run(c, events[..|events| - 1]), events[|events| - 1]);
    }
  }

  /** A completed read is the whole list, in order, whatever was lost, repeated or reordered. */
  lemma ListIsComplete(c: Config, n: nat, events: seq<Event>)
    requires VehicleHas(c, n, events)
    ensures var s := Run(c, events);
      s.settled.Some? && s.settled.value.Listed? ==>
        s.settled.value.count == n && IsWholeList(s.received, n, s.settled.value.params)
  {
    RunKeepsProgress(c, n, events);
  }

  /** Every run sends one list request and at most `maxRetries` more frames per parameter. */
  lemma RequestsAreBounded(c: Config, n: nat, events: seq<Event>)
    requires VehicleHas(c, n, events)
    ensures |Run(c, events).sent| <= 1 + c.maxRetries * if n == 0 then 1 else n
  {
    RunKeepsProgress(c, n, events);
    var s := Run(c, events);
    Pigeonhole(s.received, n, false);
    BudgetIsProduct(c.maxRetries, |s.received|);
    if |s.received| < n {
      Scale(|s.received| + 1, n, c.maxRetries);
      assert c.maxRetries * (|s.received| + 1) == c.maxRetries * |s.received| + c.maxRetries;
    }
  }

  lemma Scale(a: nat, b: nat, r: nat)
    requires a <= b
    ensures r * a <= r * b
  {
  }

  /** The workflow object.  Every method does exactly one of the transitions above. */
  class ParamList {
    const config: Config
    var count: Option<int>
    var received: seq<ParamValue>
    var retries: nat
    var settled: Option<Outcome>
    var subscribed: bool
    var timer: bool
    var outstanding: nat
    var sent: seq<Frame>

    ghost function Abs(): State
      reads this
    {
      State(count, received, retries, settled, subscribed, timer, outstanding, sent)
    }

    /** Subscribes and asks for the list. */
    constructor (config: Config)
      ensures this.config == config && Abs() == Run(config, [])
    {
      this.config := config;
      count, received, retries, settled, subscribed := None, [], 0, None, true;
      timer, outstanding, sent := false, 1, [RequestList];
    }

    method FailWith(error: Error)
      modifies this
      ensures Abs() == Fail(old(Abs()), error)
    {
      if settled.None? {
        settled, subscribed, timer := Some(Failure(error)), false, false;
      }
    }

    method FinishList(bytewise: bool)
      modifies this
      ensures Abs() == Finish(old(Abs()), bytewise)
    {
      if settled.None? {
        var params := Sort(ByIndex(), ProjectAll(received, bytewise));
        settled := Some(Listed(if count.Some? then count.value else |params|, params));
        subscribed, timer := false, false;
      }
    }

    method SendFrame(frame: Frame)
      modifies `sent, `outstanding
      ensures sent == old(sent) + [frame] && outstanding == old(outstanding) + 1
    {
      sent, outstanding := sent + [frame], outstanding + 1;
    }

    method Holds(index: int) returns (held: bool)
      ensures held <==> Has(received, index)
    {
      held := false;
      for i := 0 to |received|
        invariant held <==> exists k :: 0 <= k < i && received[k].index == index
      {
        if received[i].index == index {
          held := true;
        }
      }
    }

    method FindMissing() returns (missing: Option<nat>)
      requires count.Some?
      ensures missing == FirstMissing(received, 0, count.value)
    {
      var i := 0;
      while i < count.value
        invariant FirstMissing(received, i, count.value) == FirstMissing(received, 0, count.value)
      {
        var held := Holds(i);
        if !held {
          return Some(i);
        }
        i := i + 1;
      }
      return None;
    }

    method Receive(f: ParamValue, bytewise: bool)
      modifies this
      ensures Abs() == Step(config, old(Abs()), ValueArrives(f, bytewise))
    {
      if !subscribed || !FromTarget(config, f) || f.index == PARAM_INDEX_NONE {
        return;
      }
      if f.count.Some? {
        count := f.count;
      }
      var held := Holds(f.index);
      if !held {
        received, retries := received + [f], 0;
      }
      if count.Some? && |received| >= count.value {
        FinishList(bytewise);
      } else {
        timer := true;
      }
    }

    method SendCompleted(ok: bool)
      requires outstanding > 0
      modifies this
      ensures Abs() == Step(config, old(Abs()), if ok then SendDone else SendFails)
    {
      outstanding := outstanding - 1;
      if ok {
        timer := true;
      } else {
        FailWith(SendFailed);
      }
    }

    method TimerExpired(bytewise: bool)
      modifies this
      ensures Abs() == Step(config, old(Abs()), TimerFires(bytewise))
    {
      if !timer {
        return;
      }
      timer := false;
      if settled.Some? {
        return;
      }
      if retries >= config.maxRetries {
        FailWith(ParamTimeout);
        return;
      }
      retries := retries + 1;
      if count.None? {
        SendFrame(RequestList);
        return;
      }
      var missing := FindMissing();
      if missing.None? {
        FinishList(bytewise);
      } else {
        SendFrame(RequestRead(missing.value));
      }
    }

    method AbortNow()
      modifies this
      ensures Abs() == Step(config, old(Abs()), Abort)
    {
      FailWith(Aborted);
    }
  }
}
