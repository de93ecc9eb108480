/** The mission upload workflow, on its own and against a vehicle over a network that loses, duplicates
    and reorders.

    `connection.send` returns a promise, so between putting a frame on the link and arming the timer the
    workflow waits in `outstanding`; replies, timers and completions may interleave in any order. */
module MissionUploads {
  import opened Wrappers
  import opened MissionWorkflows

  datatype Config = Config(items: seq<Item>, maxRetries: nat, preferred: Wire, address: Address)

  datatype Phase = Idle | WaitingRequest | SendingItem | Complete | Failed

  /** The retransmission the armed timer will make. */
  datatype Timer = Off | ResendCount | ResendItem(seqNo: nat)

  /** A send whose promise is outstanding. */
  datatype Send = CountSend | ItemReply(seqNo: nat) | ItemResend(seqNo: nat)

  datatype Frame = CountFrame(count: nat) | ItemFrame(wire: Wire, fields: WireItem)

  datatype Error =
    | BadMissionType | MissionTimeout | BadSeq | Stalled
    | MissionRejected(result: int) | RequiresMavlink2 | SendFailed | Aborted

  datatype Outcome = Uploaded(count: nat) | Failure(error: Error)

  datatype State = State(
    phase: Phase, subscribed: bool, timer: Timer, retries: nat, settled: Option<Outcome>,
    requested: Option<Wire>, maxSeqSent: int, itemSends: nat, outstanding: seq<Send>, sent: seq<Frame>)

  datatype Body = Request(wire: Wire, seqNo: nat) | Ack(result: int)

  datatype Packet = Packet(header: Header, body: Body)

  datatype Event = Deliver(packet: Packet) | SendDone(at: nat) | SendFails(at: nat) | TimerFires | Abort

  const Initial := State(Idle, false, Off, 0, None, None, -1, 0, [], [])

  // Handlers

  function Fail(s: State, error: Error): State {
    if s.settled.Some? then s
    else s.(settled := Some(Failure(error)), phase := Failed, timer := Off, subscribed := false)
  }

  function Succeed(c: Config, s: State): State {
    if s.settled.Some? then s
    else s.(settled := Some(Uploaded(|c.items|)), phase := Complete, timer := Off, subscribed := false)
  }

  function SendCount(c: Config, s: State): State {
    s.(phase := WaitingRequest, sent := s.sent + [CountFrame(|c.items|)], outstanding := s.outstanding + [CountSend])
  }

  function Start(c: Config): State {
    if c.address.missionType == MISSION_TYPE_ALL then Fail(Initial.(subscribed := true), BadMissionType)
    else SendCount(c, Initial.(subscribed := true))
  }

  function ItemFor(c: Config, seqNo: nat, wire: Wire): Frame
    requires seqNo < |c.items|
  {
    ItemFrame(wire, BuildItemFields(c.items[seqNo], seqNo, wire, c.preferred))
  }

  function ResendItemNow(c: Config, s: State, seqNo: nat): State {
    if seqNo >= |c.items| then s
    else s.(sent := s.sent + [ItemFor(c, seqNo, Or(s.requested, c.preferred))],
            outstanding := s.outstanding + [ItemResend(seqNo)])
  }

  /** One nominal send and `maxRetries` re-sends per item. */
  function ItemBudget(c: Config): nat {
    |c.items| * (c.maxRetries + 1)
  }

  function OnRequest(c: Config, s: State, wire: Wire, seqNo: nat): State {
    if seqNo >= |c.items| then Fail(s, BadSeq)
    else
      var noted := s.(requested := Some(wire), itemSends := s.itemSends + 1,
                      maxSeqSent := if s.maxSeqSent < seqNo then seqNo else s.maxSeqSent);
      if noted.itemSends > ItemBudget(c) then Fail(noted, Stalled)
      else noted.(timer := Off, retries := 0, phase := SendingItem, sent := s.sent + [ItemFor(c, seqNo, wire)],
                  outstanding := s.outstanding + [ItemReply(seqNo)])
  }

  function OnAck(c: Config, s: State, result: int): State {
    if result == MISSION_ACCEPTED && |c.items| > 0 && s.maxSeqSent < |c.items| - 1 then s
    else if result == MISSION_ACCEPTED then Succeed(c, s.(timer := Off))
    else Fail(s.(timer := Off), MissionRejected(result))
  }

  function OnMessage(c: Config, s: State, p: Packet): State {
    match Screen(c.address, p.header)
    case Ignored => s
    case NeedsMavlink2 => Fail(s, RequiresMavlink2)
    case ForUs =>
      match p.body
      case Request(wire, seqNo) => OnRequest(c, s, wire, seqNo)
      case Ack(result) => OnAck(c, s, result)
  }

  /** The `.then` of a send: it runs, and arms the timer, even if the workflow has settled meanwhile. */
  function OnSendDone(s: State, done: Send): State {
    match done
    case CountSend => s.(timer := ResendCount)
    case ItemReply(seqNo) => s.(phase := WaitingRequest, timer := ResendItem(seqNo))
    case ItemResend(seqNo) => s.(timer := ResendItem(seqNo))
  }

  function OnTimeout(c: Config, s: State): State {
    var fired := s.(timer := Off);
    if s.settled.Some? then fired
    else if s.retries >= c.maxRetries then Fail(fired, MissionTimeout)
    else
      var retrying := fired.(retries := s.retries + 1);
      match s.timer
      case Off => retrying
      case ResendCount => SendCount(c, retrying)
      case ResendItem(seqNo) => ResendItemNow(c, retrying, seqNo)
  }

  function Without(outstanding: seq<Send>, at: nat): seq<Send>
    requires at < |outstanding|
  {
    outstanding[..at] + outstanding[at + 1..]
  }

  predicate Enabled(s: State, e: Event) {
    match e
    case Deliver(_) => s.subscribed
    case SendDone(at) => at < |s.outstanding|
    case SendFails(at) => at < |s.outstanding|
    case TimerFires => s.timer != Off
    case Abort => true
  }

  /** An event that is not possible in the state changes nothing. */
  function Step(c: Config, s: State, e: Event): State {
    if !Enabled(s, e) then s
    else match e
      case Deliver(p) => OnMessage(c, s, p)
      case SendDone(at) => OnSendDone(s.(outstanding := Without(s.outstanding, at)), s.outstanding[at])
      case SendFails(at) => Fail(s.(outstanding := Without(s.outstanding, at)), SendFailed)
      case TimerFires => OnTimeout(c, s)
      case Abort => Fail(s, Aborted)
  }

  function Run(c: Config, events: seq<Event>): State {
    if events == [] then Start(c) else Step(c, Run(c, events[..|events| - 1]), events[|events| - 1])
  }

  // The frame budget

  /** Requests that were answered; the last one counted may have hit the ceiling instead. */
  function Answered(c: Config, s: State): nat {
    if s.itemSends <= ItemBudget(c) then s.itemSends else ItemBudget(c)
  }

  ghost predicate Budgeted(c: Config, s: State) {
    && s.retries <= c.maxRetries
    && (s.settled.None? ==> s.itemSends <= ItemBudget(c))
    && (s.subscribed <==> s.settled.None?)
    && |s.sent| <= Allowance(Answered(c, s), c.maxRetries) + 1 + s.retries
  }

  /** `answered` times one reply and `maxRetries` re-sends. */
  function Allowance(answered: nat, maxRetries: nat): nat {
    if answered == 0 then 0 else Allowance(answered - 1, maxRetries) + maxRetries + 1
  }

  lemma {:induction false} AllowanceIsProduct(answered: nat, maxRetries: nat)
    ensures Allowance(answered, maxRetries) == answered * (maxRetries + 1)
  {
    if answered > 0 {
      AllowanceIsProduct(answered - 1, maxRetries);
      assert answered * (maxRetries + 1) == (answered - 1) * (maxRetries + 1) + (maxRetries + 1);
    }
  }

  lemma RequestKeepsBudget(c: Config, s: State, wire: Wire, seqNo: nat)
    requires Budgeted(c, s) && s.settled.None?
    ensures Budgeted(c, OnRequest(c, s, wire, seqNo))
  {
  }

  lemma TimeoutKeepsBudget(c: Config, s: State)
    requires Budgeted(c, s)
    ensures Budgeted(c, OnTimeout(c, s))
  {
  }

  lemma StepKeepsBudget(c: Config, s: State, e: Event)
    requires Budgeted(c, s)
    ensures Budgeted(c, Step(c, s, e))
  {
    match e {
      case Deliver(p) =>
        if s.subscribed && p.body.Request? {
          RequestKeepsBudget(c, s, p.body.wire, p.body.seqNo);
        }
      case TimerFires => TimeoutKeepsBudget(c, s);
      case _ =>
    }
  }

  lemma {:induction false} RunKeepsBudget(c: Config, events: seq<Event>)
    ensures Budgeted(c, Run(c, events))
  {
    if events != [] {
      RunKeepsBudget(c, events[..|events| - 1]);
      StepKeepsBudget(c, Run(c, events[..|events| - 1]), events[|events| - 1]);
    }
  }

  lemma Scale(a: nat, b: nat, r: nat)
    requires a <= b
    ensures a * r <= b * r
  {
  }

  function FrameBound(c: Config): nat {
    (c.maxRetries + 1) * (1 + |c.items| * (c.maxRetries + 1))
  }

  lemma BudgetAsProduct(c: Config, s: State)
    requires Budgeted(c, s)
    ensures |s.sent| <= FrameBound(c)
  {
    AllowanceIsProduct(Answered(c, s), c.maxRetries);
    Scale(Answered(c, s), ItemBudget(c), c.maxRetries + 1);
    assert (c.maxRetries + 1) * (1 + ItemBudget(c)) == (c.maxRetries + 1) + ItemBudget(c) * (c.maxRetries + 1);
  }

  /** Whatever the vehicle does and however timers, replies and completions interleave, the upload puts a
      bounded number of frames on the link. */
  lemma FramesAreBounded(c: Config, events: seq<Event>)
    ensures |Run(c, events).sent| <= FrameBound(c)
  {
    RunKeepsBudget(c, events);
    BudgetAsProduct(c, Run(c, events));
  }

  /** Once settled, the outcome stands and nothing more is sent, whatever still happens. */
  lemma {:induction false} NothingAfterSettling(c: Config, before: seq<Event>, after: seq<Event>)
    requires Run(c, before).settled.Some?
    ensures Run(c, before + after).settled == Run(c, before).settled
    ensures Run(c, before + after).sent == Run(c, before).sent
  {
    if after == [] {
      assert before + after == before;
    } else {
      var most := before + after[..|after| - 1];
      NothingAfterSettling(c, before, after[..|after| - 1]);
      RunKeepsBudget(c, most);
      assert (before + after)[..|before + after| - 1] == most;
    }
  }

  // Why an upload settles

  predicate Hears(c: Config, e: Event, b: Body) {
    e.Deliver? && Screen(c.address, e.packet.header) == ForUs && e.packet.body == b
  }

  /** A running upload is asked for one of its items. */
  predicate Asked(c: Config, s: State, e: Event) {
    && s.settled.None? && e.Deliver? && Hears(c, e, e.packet.body)
    && e.packet.body.Request? && e.packet.body.seqNo < |c.items|
  }

  /** How many item requests there were. */
  function Requests(c: Config, events: seq<Event>): nat {
    if events == [] then 0
    else
      var before := events[..|events| - 1];
      Requests(c, before) + if Asked(c, Run(c, before), events[|events| - 1]) then 1 else 0
  }

  /** The highest item asked for, or -1. */
  function Highest(c: Config, events: seq<Event>): int {
    if events == [] then -1
    else
      var before, e := events[..|events| - 1], events[|events| - 1];
      if Asked(c, Run(c, before), e) && e.packet.body.seqNo > Highest(c, before) then e.packet.body.seqNo
      else Highest(c, before)
  }

  /** The message type of the last item request. */
  function LastWire(c: Config, events: seq<Event>): Option<Wire> {
    if events == [] then None
    else
      var before, e := events[..|events| - 1], events[|events| - 1];
      if Asked(c, Run(c, before), e) then Some(e.packet.body.wire) else LastWire(c, before)
  }

  /** How often the timer has fired since the last item request, or since the start. */
  function Silences(c: Config, events: seq<Event>): nat {
    if events == [] then 0
    else
      var before, e := events[..|events| - 1], events[|events| - 1];
      if Asked(c, Run(c, before), e) then 0
      else Silences(c, before) + if e == TimerFires && Run(c, before).timer != Off then 1 else 0
  }

  datatype Tally = Tally(requests: nat, highest: int, lastWire: Option<Wire>, silences: nat)

  function TallyOf(c: Config, events: seq<Event>): Tally {
    Tally(Requests(c, events), Highest(c, events), LastWire(c, events), Silences(c, events))
  }

  /** What it takes for the event to settle the running upload with this outcome. */
  ghost predicate Causes(c: Config, s: State, n: Tally, e: Event, o: Outcome) {
    match o
    case Uploaded(count) =>
      count == |c.items| && Hears(c, e, Ack(MISSION_ACCEPTED)) && (c.items == [] || n.highest == |c.items| - 1)
    case Failure(MissionRejected(r)) => r != MISSION_ACCEPTED && Hears(c, e, Ack(r))
    case Failure(BadSeq) => exists wire, k: nat :: k >= |c.items| && Hears(c, e, Request(wire, k))
    case Failure(Stalled) => Asked(c, s, e) && n.requests == |c.items| * (c.maxRetries + 1)
    case Failure(RequiresMavlink2) => e.Deliver? && Screen(c.address, e.packet.header) == NeedsMavlink2
    case Failure(MissionTimeout) => e == TimerFires && s.timer != Off && n.silences == c.maxRetries
    case Failure(SendFailed) => e.SendFails? && e.at < |s.outstanding|
    case Failure(Aborted) => e == Abort
    case Failure(BadMissionType) => false
  }

  /** The upload's counters are what the events say. */
  ghost predicate Counts(c: Config, s: State, n: Tally) {
    && (s.subscribed <==> s.settled.None?)
    && (s.settled.None? ==>
          && s.itemSends == n.requests <= |c.items| * (c.maxRetries + 1) && s.maxSeqSent == n.highest < |c.items|
          && s.requested == n.lastWire && s.retries == n.silences <= c.maxRetries)
    && (s.settled.None? ==> s.timer != Off || s.outstanding != [])
    && (forall x :: x in s.outstanding && !x.CountSend? ==> x.seqNo < |c.items|)
    && (s.timer.ResendItem? ==> s.timer.seqNo < |c.items|)
  }

  lemma AskedCounts(c: Config, s: State, n: Tally, wire: Wire, k: nat)
    requires Counts(c, s, n) && s.settled.None? && k < |c.items|
    ensures Counts(c, OnRequest(c, s, wire, k),
      Tally(n.requests + 1, if k > n.highest then k else n.highest, Some(wire), 0))
  {
  }

  lemma OtherCounts(c: Config, s: State, n: Tally, e: Event)
    requires Counts(c, s, n) && !Asked(c, s, e)
    ensures Counts(c, Step(c, s, e),
      n.(silences := n.silences + if e == TimerFires && s.timer != Off then 1 else 0))
  {
    if e.SendDone? && e.at < |s.outstanding| {
      assert s.outstanding[e.at] in s.outstanding;
    }
  }

  lemma {:induction false} RunCounts(c: Config, events: seq<Event>)
    ensures Counts(c, Run(c, events), TallyOf(c, events))
  {
    if events != [] {
      var before, e := events[..|events| - 1], events[|events| - 1];
      RunCounts(c, before);
      if Asked(c, Run(c, before), e) {
        AskedCounts(c, Run(c, before), TallyOf(c, before), e.packet.body.wire, e.packet.body.seqNo);
      } else {
        OtherCounts(c, Run(c, before), TallyOf(c, before), e);
      }
    }
  }

  lemma SettlesOnCause(c: Config, s: State, n: Tally, e: Event, o: Outcome)
    requires s.settled.None? && Counts(c, s, n)
    ensures Step(c, s, e).settled == Some(o) <==> Causes(c, s, n, e, o)
  {
    if e.Deliver? && e.packet.body.Request? {
      assert Hears(c, e, e.packet.body) ==> Hears(c, e, Request(e.packet.body.wire, e.packet.body.seqNo));
    }
  }

  /** The k-th event finds the upload running and settles it with this outcome. */
  ghost predicate DecidedBy(c: Config, events: seq<Event>, k: nat, o: Outcome) {
    && k < |events| && Run(c, events[..k]).settled.None?
    && Causes(c, Run(c, events[..k]), TallyOf(c, events[..k]), events[k], o)
  }

  ghost predicate Decided(c: Config, events: seq<Event>, o: Outcome) {
    exists k: nat :: DecidedBy(c, events, k, o)
  }

  lemma DecidedEarlier(c: Config, events: seq<Event>, k: nat, o: Outcome)
    requires k < |events| - 1
    ensures DecidedBy(c, events, k, o) <==> DecidedBy(c, events[..|events| - 1], k, o)
  {
    assert events[..|events| - 1][..k] == events[..k];
  }

  lemma DecidedNext(c: Config, events: seq<Event>, o: Outcome)
    requires events != []
    ensures Decided(c, events, o) <==>
      Decided(c, events[..|events| - 1], o) || DecidedBy(c, events, |events| - 1, o)
  {
    if Decided(c, events, o) {
      var k: nat :| DecidedBy(c, events, k, o);
      if k < |events| - 1 {
        DecidedEarlier(c, events, k, o);
      }
    }
    if Decided(c, events[..|events| - 1], o) {
      var k: nat :| DecidedBy(c, events[..|events| - 1], k, o);
      DecidedEarlier(c, events, k, o);
    }
  }

  lemma SettledStays(c: Config, s: State, e: Event)
    requires s.settled.Some? && !s.subscribed
    ensures Step(c, s, e).settled == s.settled
  {
  }

  /** The outcome of an upload is the first thing that decides it: completed by an ACCEPTED after the last item was
      asked for, rejected by any other result, timed out by the silence after `maxRetries` others, stalled by one
      request too many, and so on.  Type ALL fails before anything happens. */
  lemma {:induction false} OutcomeSaysWhy(c: Config, events: seq<Event>, o: Outcome)
    ensures Run(c, events).settled == Some(o) <==>
      if c.address.missionType == MISSION_TYPE_ALL then o == Failure(BadMissionType) else Decided(c, events, o)
  {
    if events != [] {
      var before, e := events[..|events| - 1], events[|events| - 1];
      OutcomeSaysWhy(c, before, o);
      DecidedNext(c, events, o);
      RunCounts(c, before);
      if Run(c, before).settled.None? {
        SettlesOnCause(c, Run(c, before), TallyOf(c, before), e, o);
        OutcomeSaysWhy(c, before, Failure(BadMissionType));
      } else {
        SettledStays(c, Run(c, before), e);
      }
    }
  }

  // What an upload sends

  /** The frame that the event makes the upload send: the item asked for, in the message asked for, or once more what
      the timer was armed for. */
  ghost predicate Sends(c: Config, s: State, n: Tally, e: Event, f: Frame) {
    match f
    case CountFrame(count) => count == |c.items| && Repeats(c, s, n, e) && s.timer == ResendCount
    case ItemFrame(wire, fields) =>
      && fields.seqNo < |c.items| && fields == BuildItemFields(c.items[fields.seqNo], fields.seqNo, wire, c.preferred)
      && (|| (Asked(c, s, e) && e.packet.body == Request(wire, fields.seqNo)
              && n.requests < |c.items| * (c.maxRetries + 1))
          || (Repeats(c, s, n, e) && s.timer == ResendItem(fields.seqNo) && wire == Or(n.lastWire, c.preferred)))
  }

  predicate Repeats(c: Config, s: State, n: Tally, e: Event) {
    s.settled.None? && e == TimerFires && n.silences < c.maxRetries
  }

  /** The send that is awaited for a frame: an item's is told apart by whether it answers a request. */
  predicate Awaited(f: Frame, answers: bool, x: Send) {
    match f
    case CountFrame(_) => x == CountSend
    case ItemFrame(_, fields) => x == if answers then ItemReply(fields.seqNo) else ItemResend(fields.seqNo)
  }

  lemma SendsAtMostOne(c: Config, s: State, e: Event)
    ensures Step(c, s, e).sent == s.sent || exists g :: Step(c, s, e).sent == s.sent + [g]
  {
    var t := Step(c, s, e);
    if t.sent != s.sent {
      assert t.sent == s.sent + [t.sent[|s.sent|]];
    }
  }

  lemma SendsOnCall(c: Config, s: State, n: Tally, e: Event, f: Frame)
    requires Counts(c, s, n)
    ensures Step(c, s, e).sent == s.sent + [f] <==> Sends(c, s, n, e, f)
  {
    var t := Step(c, s, e);
    if t.sent != s.sent {
      assert t.sent == s.sent + [t.sent[|s.sent|]];
      assert (s.sent + [f])[|s.sent|] == f;
    }
  }

  lemma AwaitsWhatItSends(c: Config, s: State, n: Tally, e: Event, f: Frame)
    requires Counts(c, s, n) && Sends(c, s, n, e, f)
    ensures |Step(c, s, e).outstanding| == |s.outstanding| + 1
    ensures Awaited(f, e.Deliver?, Step(c, s, e).outstanding[|s.outstanding|])
  {
  }

  /** In every run an event sends nothing or the one frame that it calls for. */
  lemma EveryFrameIsCalledFor(c: Config, events: seq<Event>, e: Event, f: Frame)
    ensures var s, t := Run(c, events), Run(c, events + [e]);
      && (t.sent == s.sent + [f] <==> Sends(c, s, TallyOf(c, events), e, f))
      && (t.sent == s.sent || exists g :: t.sent == s.sent + [g])
      && (Sends(c, s, TallyOf(c, events), e, f) ==>
            |t.outstanding| == |s.outstanding| + 1 && Awaited(f, e.Deliver?, t.outstanding[|s.outstanding|]))
  {
    assert (events + [e])[..|events|] == events;
    RunCounts(c, events);
    SendsOnCall(c, Run(c, events), TallyOf(c, events), e, f);
    SendsAtMostOne(c, Run(c, events), e);
    if Sends(c, Run(c, events), TallyOf(c, events), e, f) {
      AwaitsWhatItSends(c, Run(c, events), TallyOf(c, events), e, f);
    }
  }

  /** A completed send arms the timer for the frame it was about: what is repeated is what was sent. */
  lemma CompletedSendIsRepeated(c: Config, s: State, n: Tally, at: nat, f: Frame, answers: bool)
    requires Counts(c, s, n) && s.settled.None? && s.retries < c.maxRetries
    requires at < |s.outstanding| && Awaited(f, answers, s.outstanding[at])
    ensures var t := Step(c, Step(c, s, SendDone(at)), TimerFires);
      && |t.sent| == |s.sent| + 1
      && match t.sent[|s.sent|]
         case CountFrame(_) => f.CountFrame?
         case ItemFrame(_, fields) => f.ItemFrame? && fields.seqNo == f.fields.seqNo
  {
    assert s.outstanding[at] in s.outstanding;
  }

  /** What the event leaves the timer armed for: a completed send arms it for what it was about, and it is stopped when
      an item is asked for, when it fires and when the upload settles. */
  function Rearmed(c: Config, s: State, e: Event, settles: bool, armed: Timer): Timer {
    if e.SendDone? && e.at < |s.outstanding| then
      match s.outstanding[e.at]
      case CountSend => ResendCount
      case ItemReply(k) => ResendItem(k)
      case ItemResend(k) => ResendItem(k)
    else if settles || Asked(c, s, e) || e == TimerFires then Off
    else armed
  }

  function ArmedFor(c: Config, events: seq<Event>): Timer {
    if events == [] then Off
    else
      var before, e := events[..|events| - 1], events[|events| - 1];
      var settles := Run(c, before).settled.None? && Run(c, events).settled.Some?;
      Rearmed(c, Run(c, before), e, settles, ArmedFor(c, before))
  }

  lemma StepTimer(c: Config, s: State, e: Event)
    requires s.subscribed <==> s.settled.None?
    ensures Step(c, s, e).timer == Rearmed(c, s, e, s.settled.None? && Step(c, s, e).settled.Some?, s.timer)
  {
  }

  lemma {:induction false} TimerTells(c: Config, events: seq<Event>)
    ensures Run(c, events).timer == ArmedFor(c, events)
  {
    if events != [] {
      TimerTells(c, events[..|events| - 1]);
      RunCounts(c, events[..|events| - 1]);
      StepTimer(c, Run(c, events[..|events| - 1]), events[|events| - 1]);
    }
  }

  // The phase after settling

  /** The completion of an item's send: the one handler that writes the phase without asking whether the
      workflow has settled. */
  predicate CompletesReply(s: State, e: Event) {
    e.SendDone? && e.at < |s.outstanding| && s.outstanding[e.at].ItemReply?
  }

  /** The phase shown is not final.  After settling it changes exactly when an item's send completes late, and
      then to waiting for a request; a timer is armed exactly when any send completes late. */
  lemma PhaseAfterSettling(c: Config, events: seq<Event>, e: Event)
    requires Run(c, events).settled.Some?
    ensures var s, t := Run(c, events), Run(c, events + [e]);
      && (t.phase != s.phase <==> CompletesReply(s, e) && s.phase != WaitingRequest)
      && (t.phase != s.phase ==> t.phase == WaitingRequest)
      && (t.timer != Off <==> (e.SendDone? && e.at < |s.outstanding|) || (s.timer != Off && !e.TimerFires?))
  {
    RunKeepsBudget(c, events);
    assert (events + [e])[..|events|] == events;
  }

  /** The phase shown while the upload runs: sending an item from its request until its send completes or the count is
      sent again, and waiting for a request otherwise. */
  predicate Sending(c: Config, events: seq<Event>) {
    if events == [] then false
    else
      var before, e := events[..|events| - 1], events[|events| - 1];
      var s := Run(c, before);
      if Asked(c, s, e) then true
      else if CompletesReply(s, e) then false
      else if Repeats(c, s, TallyOf(c, before), e) && s.timer == ResendCount then false
      else Sending(c, before)
  }

  lemma StepShowsPhase(c: Config, s: State, n: Tally, e: Event)
    requires Counts(c, s, n) && s.settled.None? && (s.phase == WaitingRequest || s.phase == SendingItem)
    ensures var t := Step(c, s, e);
      t.phase ==
        if t.settled.Some? then (if t.settled.value.Uploaded? then Complete else Failed)
        else if Asked(c, s, e) then SendingItem
        else if CompletesReply(s, e) || (Repeats(c, s, n, e) && s.timer == ResendCount) then WaitingRequest
        else s.phase
  {
  }

  /** The phase of a running upload is what the events say; the event that settles it shows the outcome. */
  lemma {:induction false} PhaseTells(c: Config, events: seq<Event>)
    ensures var s := Run(c, events);
      s.settled.None? ==> s.phase == if Sending(c, events) then SendingItem else WaitingRequest
    ensures var s := Run(c, events);
      s.settled.Some? && (events == [] || Run(c, events[..|events| - 1]).settled.None?) ==>
        s.phase == if s.settled.value.Uploaded? then Complete else Failed
  {
    if events != [] {
      var before, e := events[..|events| - 1], events[|events| - 1];
      PhaseTells(c, before);
      RunCounts(c, before);
      if Run(c, before).settled.None? {
        StepShowsPhase(c, Run(c, before), TallyOf(c, before), e);
      } else {
        SettledStays(c, Run(c, before), e);
      }
    }
  }

  /** Only missions with items ever have an item's send outstanding. */
  ghost predicate RepliesHaveItems(c: Config, s: State) {
    && (c.address.missionType == MISSION_TYPE_ALL ==> s.settled.Some?)
    && (s.settled.Some? ==> !s.subscribed)
    && forall x :: x in s.outstanding && x.ItemReply? ==> c.items != [] && c.address.missionType != MISSION_TYPE_ALL
  }

  lemma {:induction false} RunRepliesHaveItems(c: Config, events: seq<Event>)
    ensures RepliesHaveItems(c, Run(c, events))
  {
    if events != [] {
      RunRepliesHaveItems(c, events[..|events| - 1]);
    }
  }

  function LateCompletion(c: Config): seq<Event> {
    [Deliver(Packet(ForUsHeader(c.address), Request(ItemInt, 0))), Abort, SendDone(1)]
  }

  lemma LateCompletionHappens(c: Config)
    requires c.items != [] && c.address.missionType != MISSION_TYPE_ALL
    ensures var events := LateCompletion(c);
      && Run(c, events[..2]).settled.Some? && events == events[..2] + [events[2]]
      && Run(c, events[..2]).phase != Run(c, events).phase
  {
    var events := LateCompletion(c);
    assert Run(c, []) == Start(c);
    assert events[..1][..0] == [] && events[..2][..1] == events[..1];
    assert 1 * (c.maxRetries + 1) <= ItemBudget(c) by {
      Scale(1, |c.items|, c.maxRetries + 1);
    }
    var s1 := Run(c, events[..1]);
    assert s1 == OnRequest(c, Start(c), ItemInt, 0) && s1.outstanding == [CountSend, ItemReply(0)];
    assert Run(c, events[..2]) == Fail(s1, Aborted);
  }

  /** Which uploads can show it: all that have an item and a type that can be uploaded. */
  lemma LateCompletionReopensPhase(c: Config)
    ensures (exists events, e ::
      Run(c, events).settled.Some? && Run(c, events + [e]).phase != Run(c, events).phase) <==>
      c.items != [] && c.address.missionType != MISSION_TYPE_ALL
  {
    if c.items != [] && c.address.missionType != MISSION_TYPE_ALL {
      LateCompletionHappens(c);
      var events := LateCompletion(c);
      assert Run(c, events[..2] + [events[2]]).phase != Run(c, events[..2]).phase;
    }
    forall events, e | Run(c, events).settled.Some? && Run(c, events + [e]).phase != Run(c, events).phase
      ensures c.items != [] && c.address.missionType != MISSION_TYPE_ALL
    {
      PhaseAfterSettling(c, events, e);
      RunRepliesHaveItems(c, events);
      assert Run(c, events).outstanding[e.at] in Run(c, events).outstanding;
    }
  }

  // Against a vehicle, over a lossy network

  /** A vehicle that pulls the items in order and ignores a count while it is busy or done. */
  datatype Vehicle = Empty | Receiving(count: nat, store: seq<Taken>) | Holding(store: seq<Taken>)

  /** An item as the vehicle took it, with the message that carried it: that says how to read x and y. */
  datatype Taken = Taken(wire: Wire, fields: WireItem)

  /** `offered` is what the vehicle has sent so far.  Frames in `gcs.sent` and packets in `offered` may be
      delivered any number of times, in any order, or never. */
  datatype System = System(gcs: State, vehicle: Vehicle, offered: set<Body>)

  /** `ToVehicle` and `Local` drive the two ends.  `ToGcs` delivers a packet: one of the vehicle's, one that the
      workflow ignores, or, when `staleAcks` is set, an ACCEPTED acknowledgement out of nowhere.  `Nudge`
      is the vehicle repeating its last message, `Refuse` its giving up. */
  datatype Move =
    ToVehicle(frame: Frame) | ToGcs(packet: Packet) | Local(event: Event) | Nudge(wire: Wire) | Refuse(result: int)

  function Store(v: Vehicle): seq<Taken> {
    if v.Empty? then [] else v.store
  }

  /** What the vehicle says next. */
  function Reply(v: Vehicle, wire: Wire): set<Body> {
    match v
    case Empty => {}
    case Receiving(_, store) => {Request(wire, |store|)}
    case Holding(_) => {Ack(MISSION_ACCEPTED)}
  }

  function VehicleTakes(v: Vehicle, f: Frame): Vehicle {
    match f
    case CountFrame(n) => if !v.Empty? then v else if n == 0 then Holding([]) else Receiving(n, [])
    case ItemFrame(wire, fields) =>
      if !v.Receiving? || fields.seqNo != |v.store| then v
      else if |v.store| + 1 == v.count then Holding(v.store + [Taken(wire, fields)])
      else Receiving(v.count, v.store + [Taken(wire, fields)])
  }

  predicate Deliverable(c: Config, staleAcks: bool, y: System, p: Packet) {
    || Screen(c.address, p.header) != ForUs
    || p.body in y.offered
    || (staleAcks && p.body == Ack(MISSION_ACCEPTED))
  }

  function Play(c: Config, staleAcks: bool, y: System, m: Move): System {
    match m
    case ToVehicle(f) =>
      if f in y.gcs.sent then
        var v := VehicleTakes(y.vehicle, f);
        y.(vehicle := v, offered := y.offered + Reply(v, ItemInt) + Reply(v, ItemFloat))
      else y
    case ToGcs(p) => if Deliverable(c, staleAcks, y, p) then y.(gcs := Step(c, y.gcs, Deliver(p))) else y
    case Local(e) => if e.Deliver? then y else y.(gcs := Step(c, y.gcs, e))
    case Nudge(wire) => y.(offered := y.offered + Reply(y.vehicle, wire))
    case Refuse(result) => if result == MISSION_ACCEPTED then y else y.(offered := y.offered + {Ack(result)})
  }

  function PlayAll(c: Config, staleAcks: bool, moves: seq<Move>): System {
    if moves == [] then System(Start(c), Empty, {})
    else Play(c, staleAcks, PlayAll(c, staleAcks, moves[..|moves| - 1]), moves[|moves| - 1])
  }

  // Safety

  /** The k-th item of the mission, built for the message that carries it. */
  predicate IsItem(c: Config, k: nat, item: Taken) {
    k < |c.items| && item.fields == BuildItemFields(c.items[k], k, item.wire, c.preferred)
  }

  ghost predicate StoresPrefix(c: Config, store: seq<Taken>) {
    |store| <= |c.items| && forall k :: 0 <= k < |store| ==> IsItem(c, k, store[k])
  }

  /** What the vehicle has stored commands what the mission's items say, in their order. */
  ghost predicate CommandsPrefix(c: Config, store: seq<Taken>) {
    && |store| <= |c.items|
    && forall k :: 0 <= k < |store| ==> Commands(c.items[k], k, c.preferred, store[k].wire, store[k].fields)
  }

  ghost predicate HoldsAll(c: Config, v: Vehicle) {
    v.Holding? && |v.store| == |c.items|
  }

  ghost predicate FramesAreTrue(c: Config, sent: seq<Frame>) {
    forall f :: f in sent ==>
      match f
      case CountFrame(n) => n == |c.items|
      case ItemFrame(wire, fields) => IsItem(c, fields.seqNo, Taken(wire, fields))
  }

  ghost predicate VehicleIsTrue(c: Config, v: Vehicle) {
    && StoresPrefix(c, Store(v))
    && (v.Receiving? ==> v.count == |c.items| && |v.store| < |c.items|)
    && (v.Holding? ==> HoldsAll(c, v))
  }

  ghost predicate OffersAreTrue(c: Config, v: Vehicle, offered: set<Body>) {
    && (forall wire, k: nat :: Request(wire, k) in offered ==> k <= |Store(v)| && k < |c.items|)
    && (Ack(MISSION_ACCEPTED) in offered ==> HoldsAll(c, v))
  }

  ghost predicate ItemSent(sent: seq<Frame>, k: int) {
    exists f :: f in sent && f.ItemFrame? && f.fields.seqNo == k
  }

  ghost predicate ProgressIsTrue(c: Config, staleAcks: bool, s: State, v: Vehicle) {
    && -1 <= s.maxSeqSent < |c.items| && s.maxSeqSent <= |Store(v)|
    && ((s.settled.None? || s.settled.value.Uploaded?) && s.maxSeqSent >= 0 ==> ItemSent(s.sent, s.maxSeqSent))
    && (s.settled.Some? && s.settled.value.Uploaded? ==>
          s.maxSeqSent == |c.items| - 1 && (staleAcks || HoldsAll(c, v)))
  }

  ghost predicate Safe(c: Config, staleAcks: bool, y: System) {
    && Budgeted(c, y.gcs)
    && FramesAreTrue(c, y.gcs.sent)
    && VehicleIsTrue(c, y.vehicle)
    && OffersAreTrue(c, y.vehicle, y.offered)
    && ProgressIsTrue(c, staleAcks, y.gcs, y.vehicle)
  }

  lemma StepSendsTrueFrames(c: Config, s: State, e: Event)
    requires FramesAreTrue(c, s.sent)
    ensures FramesAreTrue(c, Step(c, s, e).sent)
    ensures forall f :: f in s.sent ==> f in Step(c, s, e).sent
  {
  }

  lemma VehicleStaysTrue(c: Config, v: Vehicle, f: Frame)
    requires VehicleIsTrue(c, v) && FramesAreTrue(c, [f])
    ensures VehicleIsTrue(c, VehicleTakes(v, f)) && |Store(v)| <= |Store(VehicleTakes(v, f))|
    ensures v.Holding? ==> VehicleTakes(v, f) == v
  {
    assert f in [f];
  }

  /** Anything but a packet from the vehicle leaves the upload's progress alone. */
  lemma LocalKeepsProgress(c: Config, staleAcks: bool, s: State, v: Vehicle, e: Event)
    requires Budgeted(c, s) && ProgressIsTrue(c, staleAcks, s, v) && !e.Deliver?
    ensures ProgressIsTrue(c, staleAcks, Step(c, s, e), v)
  {
    var t := Step(c, s, e);
    if ItemSent(s.sent, s.maxSeqSent) {
      var f :| f in s.sent && f.ItemFrame? && f.fields.seqNo == s.maxSeqSent;
      assert f in t.sent;
    }
  }

  lemma RequestKeepsProgress(c: Config, staleAcks: bool, s: State, v: Vehicle, wire: Wire, k: nat)
    requires s.settled.None? && ProgressIsTrue(c, staleAcks, s, v) && k <= |Store(v)| && k < |c.items|
    ensures ProgressIsTrue(c, staleAcks, OnRequest(c, s, wire, k), v)
  {
    var t := OnRequest(c, s, wire, k);
    if t.settled.None? {
      assert ItemFor(c, k, wire) in t.sent;
      if k < s.maxSeqSent {
        var f :| f in s.sent && f.ItemFrame? && f.fields.seqNo == s.maxSeqSent;
        assert f in t.sent;
      }
    }
  }

  lemma DeliveryKeepsProgress(c: Config, staleAcks: bool, y: System, p: Packet)
    requires Safe(c, staleAcks, y) && Deliverable(c, staleAcks, y, p)
    ensures ProgressIsTrue(c, staleAcks, Step(c, y.gcs, Deliver(p)), y.vehicle)
  {
    if y.gcs.subscribed && Screen(c.address, p.header) == ForUs && p.body.Request? {
      RequestKeepsProgress(c, staleAcks, y.gcs, y.vehicle, p.body.wire, p.body.seqNo);
    }
  }

  lemma PlayStaysSafe(c: Config, staleAcks: bool, y: System, m: Move)
    requires Safe(c, staleAcks, y)
    ensures Safe(c, staleAcks, Play(c, staleAcks, y, m))
  {
    match m {
      case ToVehicle(f) =>
        if f in y.gcs.sent {
          VehicleStaysTrue(c, y.vehicle, f);
        }
      case ToGcs(p) =>
        if Deliverable(c, staleAcks, y, p) {
          StepKeepsBudget(c, y.gcs, Deliver(p));
          StepSendsTrueFrames(c, y.gcs, Deliver(p));
          DeliveryKeepsProgress(c, staleAcks, y, p);
        }
      case Local(e) =>
        if !e.Deliver? {
          StepKeepsBudget(c, y.gcs, e);
          StepSendsTrueFrames(c, y.gcs, e);
          LocalKeepsProgress(c, staleAcks, y.gcs, y.vehicle, e);
        }
      case Nudge(_) =>
      case Refuse(_) =>
    }
  }

  lemma {:induction false} PlayAllStaysSafe(c: Config, staleAcks: bool, moves: seq<Move>)
    ensures Safe(c, staleAcks, PlayAll(c, staleAcks, moves))
  {
    if moves != [] {
      PlayAllStaysSafe(c, staleAcks, moves[..|moves| - 1]);
      PlayStaysSafe(c, staleAcks, PlayAll(c, staleAcks, moves[..|moves| - 1]), moves[|moves| - 1]);
    }
  }

  predicate Completed(s: State) {
    s.settled.Some? && s.settled.value.Uploaded?
  }

  /** At every moment what the vehicle has stored commands a prefix of the mission.  A reported success means that
      the last item went out and at most that one is missing, or that a clear was asked for; without stale
      acknowledgements it means the vehicle holds the whole mission. */
  lemma UploadIsSafe(c: Config, staleAcks: bool, moves: seq<Move>)
    ensures var y := PlayAll(c, staleAcks, moves);
      && StoresPrefix(c, Store(y.vehicle)) && CommandsPrefix(c, Store(y.vehicle))
      && (Completed(y.gcs) ==>
            && y.gcs.settled.value.count == |c.items|
            && (HoldsAll(c, y.vehicle)
                || (staleAcks && c.items == [] && y.vehicle.Empty?)
                || (staleAcks && c.items != [] && |Store(y.vehicle)| == |c.items| - 1))
            && (c.items != [] ==> ItemSent(y.gcs.sent, |c.items| - 1)))
  {
    PlayAllStaysSafe(c, staleAcks, moves);
    PlayAllCounts(c, staleAcks, moves);
    StoredCommands(c, Store(PlayAll(c, staleAcks, moves).vehicle));
  }

  lemma StoredCommands(c: Config, store: seq<Taken>)
    requires StoresPrefix(c, store)
    ensures CommandsPrefix(c, store)
  {
    forall k | 0 <= k < |store| ensures Commands(c.items[k], k, c.preferred, store[k].wire, store[k].fields) {
      UploadCommandsTheSamePoint(c.items[k], k, store[k].wire, c.preferred);
    }
  }

  ghost predicate CountIsTrue(c: Config, s: State) {
    Completed(s) ==> s.settled.value.count == |c.items|
  }

  lemma StepCounts(c: Config, s: State, e: Event)
    requires CountIsTrue(c, s)
    ensures CountIsTrue(c, Step(c, s, e))
  {
  }

  lemma {:induction false} PlayAllCounts(c: Config, staleAcks: bool, moves: seq<Move>)
    ensures CountIsTrue(c, PlayAll(c, staleAcks, moves).gcs)
  {
    if moves != [] {
      PlayAllCounts(c, staleAcks, moves[..|moves| - 1]);
      var before := PlayAll(c, staleAcks, moves[..|moves| - 1]).gcs;
      match moves[|moves| - 1] {
        case ToGcs(p) => StepCounts(c, before, Deliver(p));
        case Local(e) => StepCounts(c, before, e);
        case _ =>
      }
    }
  }

  // When a completed upload means a stored mission

  ghost predicate CompletionMeansStored(c: Config, staleAcks: bool) {
    forall moves :: Completed(PlayAll(c, staleAcks, moves).gcs) ==> HoldsAll(c, PlayAll(c, staleAcks, moves).vehicle)
  }

  lemma PlayOneMore(c: Config, staleAcks: bool, moves: seq<Move>, m: Move)
    ensures PlayAll(c, staleAcks, moves + [m]) == Play(c, staleAcks, PlayAll(c, staleAcks, moves), m)
  {
    assert (moves + [m])[..|moves|] == moves;
  }

  function Delivery(c: Config, b: Body): Move {
    ToGcs(Packet(ForUsHeader(c.address), b))
  }

  /** The vehicle has taken the first `k` items and asks for the next, which was not answered yet. */
  ghost predicate Pulled(c: Config, y: System, k: nat) {
    && y.gcs.settled.None? && y.gcs.subscribed && y.gcs.itemSends == k && y.gcs.maxSeqSent == k - 1
    && y.vehicle.Receiving? && y.vehicle.count == |c.items| && |y.vehicle.store| == k
    && Request(ItemInt, k) in y.offered
  }

  lemma CountIsTaken(c: Config, y: System)
    requires y.vehicle.Empty? && c.items != [] && CountFrame(|c.items|) in y.gcs.sent
    ensures var z := Play(c, true, y, ToVehicle(CountFrame(|c.items|)));
      z.gcs == y.gcs && z.vehicle == Receiving(|c.items|, []) && Request(ItemInt, 0) in z.offered
  {
    assert Request(ItemInt, 0) in Reply(Receiving(|c.items|, []), ItemInt);
  }

  lemma PullStarts(c: Config)
    requires c.items != [] && c.address.missionType != MISSION_TYPE_ALL
    ensures Pulled(c, PlayAll(c, true, [] + [ToVehicle(CountFrame(|c.items|))]), 0)
  {
    var start := System(Start(c), Empty, {});
    assert PlayAll(c, true, []) == start;
    assert start.gcs.sent == [CountFrame(|c.items|)];
    CountIsTaken(c, start);
    PlayOneMore(c, true, [], ToVehicle(CountFrame(|c.items|)));
  }

  lemma RequestIsAnswered(c: Config, s: State, k: nat)
    requires s.settled.None? && s.itemSends == k < |c.items| && s.maxSeqSent == k - 1
    ensures var t := OnRequest(c, s, ItemInt, k);
      && t.settled.None? && t.subscribed == s.subscribed && t.itemSends == k + 1 && t.maxSeqSent == k
      && t.sent == s.sent + [ItemFor(c, k, ItemInt)]
  {
    assert k + 1 <= ItemBudget(c) by {
      Scale(1, c.maxRetries + 1, |c.items|);
      assert |c.items| * (c.maxRetries + 1) == (c.maxRetries + 1) * |c.items|;
    }
  }

  /** Item `k` is asked for and sent, but not delivered yet. */
  lemma PullAnswers(c: Config, moves: seq<Move>, k: nat)
    requires k < |c.items| && Pulled(c, PlayAll(c, true, moves), k)
    ensures var y, z := PlayAll(c, true, moves), PlayAll(c, true, moves + [Delivery(c, Request(ItemInt, k))]);
      && z.gcs == OnRequest(c, y.gcs, ItemInt, k) && z.vehicle == y.vehicle && z.offered == y.offered
  {
    PlayOneMore(c, true, moves, Delivery(c, Request(ItemInt, k)));
  }

  lemma PullNext(c: Config, moves: seq<Move>, k: nat) returns (more: seq<Move>)
    requires k + 1 < |c.items| && Pulled(c, PlayAll(c, true, moves), k)
    ensures Pulled(c, PlayAll(c, true, more), k + 1)
  {
    var asked := moves + [Delivery(c, Request(ItemInt, k))];
    PullAnswers(c, moves, k);
    RequestIsAnswered(c, PlayAll(c, true, moves).gcs, k);
    more := asked + [ToVehicle(ItemFor(c, k, ItemInt))];
    PlayOneMore(c, true, asked, ToVehicle(ItemFor(c, k, ItemInt)));
    assert ItemFor(c, k, ItemInt) in PlayAll(c, true, asked).gcs.sent;
  }

  lemma {:induction false} PullUpTo(c: Config, k: nat) returns (moves: seq<Move>)
    requires k < |c.items| && c.address.missionType != MISSION_TYPE_ALL
    ensures Pulled(c, PlayAll(c, true, moves), k)
  {
    if k == 0 {
      PullStarts(c);
      moves := [] + [ToVehicle(CountFrame(|c.items|))];
    } else {
      moves := PullUpTo(c, k - 1);
      moves := PullNext(c, moves, k - 1);
    }
  }

  /** A stale acknowledgement that arrives between the last item's send and its delivery is taken for the real
      one: for every mission with items some run completes with exactly the last item missing. */
  lemma StaleAckLosesLastItem(c: Config)
    requires c.items != [] && c.address.missionType != MISSION_TYPE_ALL
    ensures exists moves :: var y := PlayAll(c, true, moves);
      Completed(y.gcs) && y.vehicle.Receiving? && |Store(y.vehicle)| == |c.items| - 1
  {
    var last := |c.items| - 1;
    var pulled := PullUpTo(c, last);
    var asked := pulled + [Delivery(c, Request(ItemInt, last))];
    PullAnswers(c, pulled, last);
    RequestIsAnswered(c, PlayAll(c, true, pulled).gcs, last);
    var moves := asked + [Delivery(c, Ack(MISSION_ACCEPTED))];
    PlayOneMore(c, true, asked, Delivery(c, Ack(MISSION_ACCEPTED)));
    assert Completed(PlayAll(c, true, moves).gcs)
      && PlayAll(c, true, moves).vehicle == PlayAll(c, true, pulled).vehicle;
  }

  /** An empty upload is a clear, and any acknowledgement completes it, even before the vehicle has heard of it. */
  lemma StaleAckSkipsClear(c: Config)
    requires c.items == [] && c.address.missionType != MISSION_TYPE_ALL
    ensures exists moves :: Completed(PlayAll(c, true, moves).gcs) && PlayAll(c, true, moves).vehicle.Empty?
  {
    PlayOneMore(c, true, [], Delivery(c, Ack(MISSION_ACCEPTED)));
    assert Completed(PlayAll(c, true, [] + [Delivery(c, Ack(MISSION_ACCEPTED))]).gcs);
  }

  /** Type ALL is refused before anything is sent. */
  lemma {:induction false} AllTypesNeverComplete(c: Config, staleAcks: bool, moves: seq<Move>)
    requires c.address.missionType == MISSION_TYPE_ALL
    ensures PlayAll(c, staleAcks, moves).gcs.settled == Some(Failure(BadMissionType))
  {
    if moves != [] {
      AllTypesNeverComplete(c, staleAcks, moves[..|moves| - 1]);
      PlayAllStaysSafe(c, staleAcks, moves[..|moves| - 1]);
    }
  }

  /** Every run that completes leaves the mission on the vehicle if and only if no stale acknowledgement can
      arrive, or the type is one for which no upload ever completes. */
  lemma CompletionMeansStoredIff(c: Config, staleAcks: bool)
    ensures CompletionMeansStored(c, staleAcks) <==> !staleAcks || c.address.missionType == MISSION_TYPE_ALL
  {
    if c.address.missionType == MISSION_TYPE_ALL {
      forall moves ensures !Completed(PlayAll(c, staleAcks, moves).gcs) {
        AllTypesNeverComplete(c, staleAcks, moves);
      }
    } else if !staleAcks {
      forall moves | Completed(PlayAll(c, staleAcks, moves).gcs)
        ensures HoldsAll(c, PlayAll(c, staleAcks, moves).vehicle)
      {
        UploadIsSafe(c, staleAcks, moves);
      }
    } else if c.items == [] {
      StaleAckSkipsClear(c);
    } else {
      StaleAckLosesLastItem(c);
    }
  }

  /** The workflow object.  Every method does exactly one of the transitions above. */
  class MissionUpload {
    const config: Config
    var phase: Phase
    var subscribed: bool
    var timer: Timer
    var retries: nat
    var settled: Option<Outcome>
    var requested: Option<Wire>
    var maxSeqSent: int
    var itemSends: nat
    var outstanding: seq<Send>
    var sent: seq<Frame>

    ghost function Abs(): State
      reads this
    {
      State(phase, subscribed, timer, retries, settled, requested, maxSeqSent, itemSends, outstanding, sent)
    }

    constructor (config: Config)
      ensures this.config == config && Abs() == Initial
    {
      this.config := config;
      phase, subscribed, timer, retries, settled := Idle, false, Off, 0, None;
      requested, maxSeqSent, itemSends, outstanding, sent := None, -1, 0, [], [];
    }

    method Begin()
      requires Abs() == Initial
      modifies this
      ensures Abs() == Run(config, [])
    {
      subscribed := true;
      if config.address.missionType == MISSION_TYPE_ALL {
        FailWith(BadMissionType);
      } else {
        SendMissionCount();
      }
    }

    method FailWith(error: Error)
      modifies this
      ensures Abs() == Fail(old(Abs()), error)
    {
      if settled.None? {
        settled, phase := Some(Failure(error)), Failed;
        timer, subscribed := Off, false;
      }
    }

    method SendFrame(frame: Frame, send: Send)
      modifies `sent, `outstanding
      ensures sent == old(sent) + [frame] && outstanding == old(outstanding) + [send]
    {
      sent, outstanding := sent + [frame], outstanding + [send];
    }

    method SendMissionCount()
      modifies this
      ensures Abs() == SendCount(config, old(Abs()))
    {
      phase := WaitingRequest;
      SendFrame(CountFrame(|config.items|), CountSend);
    }

    method Receive(p: Packet)
      modifies this
      ensures Abs() == Step(config, old(Abs()), Deliver(p))
    {
      if !subscribed {
        return;
      }
      var screening := Screen(config.address, p.header);
      if screening.NeedsMavlink2? {
        FailWith(RequiresMavlink2);
      } else if screening.ForUs? {
        match p.body {
          case Request(wire, seqNo) => AnswerRequest(wire, seqNo);
          case Ack(result) => HandleAck(result);
        }
      }
    }

    method AnswerRequest(wire: Wire, seqNo: nat)
      modifies this
      ensures Abs() == OnRequest(config, old(Abs()), wire, seqNo)
    {
      if seqNo >= |config.items| {
        FailWith(BadSeq);
        return;
      }
      requested := Some(wire);
      if maxSeqSent < seqNo {
        maxSeqSent := seqNo;
      }
      itemSends := itemSends + 1;
      if itemSends > |config.items| * (config.maxRetries + 1) {
        FailWith(Stalled);
        return;
      }
      timer, retries, phase := Off, 0, SendingItem;
      SendFrame(ItemFrame(wire, BuildItemFields(config.items[seqNo], seqNo, wire, config.preferred)), ItemReply(seqNo));
    }

    method HandleAck(result: int)
      modifies this
      ensures Abs() == OnAck(config, old(Abs()), result)
    {
      if result == MISSION_ACCEPTED && |config.items| > 0 && maxSeqSent < |config.items| - 1 {
        return;
      }
      timer := Off;
      if result != MISSION_ACCEPTED {
        FailWith(MissionRejected(result));
      } else if settled.None? {
        settled, phase, subscribed := Some(Uploaded(|config.items|)), Complete, false;
      }
    }

    method SendCompleted(at: nat, ok: bool)
      modifies this
      ensures Abs() == Step(config, old(Abs()), if ok then SendDone(at) else SendFails(at))
    {
      if at >= |outstanding| {
        return;
      }
      var done := outstanding[at];
      outstanding := outstanding[..at] + outstanding[at + 1..];
      if !ok {
        FailWith(SendFailed);
        return;
      }
      match done {
        case CountSend => timer := ResendCount;
        case ItemReply(seqNo) => phase, timer := WaitingRequest, ResendItem(seqNo);
        case ItemResend(seqNo) => timer := ResendItem(seqNo);
      }
    }

    method TimerExpired()
      modifies this
      ensures Abs() == Step(config, old(Abs()), TimerFires)
    {
      var action := timer;
      timer := Off;
      if action.Off? || settled.Some? {
        return;
      }
      if retries >= config.maxRetries {
        FailWith(MissionTimeout);
        return;
      }
      retries := retries + 1;
      match action {
        case ResendCount => SendMissionCount();
        case ResendItem(seqNo) =>
          if seqNo < |config.items| {
            var wire := if requested.Some? then requested.value else config.preferred;
            SendFrame(ItemFrame(wire, BuildItemFields(config.items[seqNo], seqNo, wire, config.preferred)),
              ItemResend(seqNo));
          }
      }
    }

    method AbortNow()
      modifies this
      ensures Abs() == Step(config, old(Abs()), Abort)
    {
      FailWith(Aborted);
    }
  }
}
