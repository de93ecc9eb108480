/** The mission download workflow against a vehicle that holds a fixed mission.

    Sends complete on their own time, as in the upload.  The network may lose, duplicate and reorder: every
    packet the vehicle could truthfully send may be delivered at any moment, any number of times or never. */
module MissionDownloads {
  import opened Wrappers
  import opened MissionWorkflows

  datatype Config = Config(maxRetries: nat, preferred: Wire, globalFrames: set<int>, address: Address)

  datatype Phase = Idle | WaitingCount | WaitingItem | SendingAck | Complete | Failed

  datatype Timer = Off | RepeatList | RepeatItem(seqNo: nat)

  datatype Send = ListSend | ItemSend(seqNo: nat) | AckSend

  /** `RequestItem(ItemInt, k)` is MISSION_REQUEST_INT, `RequestItem(ItemFloat, k)` plain MISSION_REQUEST. */
  datatype Frame = RequestList | RequestItem(wire: Wire, seqNo: nat) | FinalAck

  datatype Error =
    BadMissionType | MissionTimeout | MissionRejected(result: int) | RequiresMavlink2 | SendFailed | Aborted

  datatype Outcome = Downloaded(count: nat, items: seq<Item>) | Failure(error: Error)

  datatype State = State(
    phase: Phase, subscribed: bool, timer: Timer, retries: nat, settled: Option<Outcome>,
    wire: Wire, downgraded: bool, count: nat, items: seq<Item>, expectedSeq: nat,
    outstanding: seq<Send>, sent: seq<Frame>)

  datatype Body = Count(count: nat) | ItemMessage(wire: Wire, fields: WireItem) | Ack(result: int)

  datatype Packet = Packet(header: Header, body: Body)

  datatype Event = Deliver(packet: Packet) | SendDone(at: nat) | SendFails(at: nat) | TimerFires | Abort

  // Handlers

  function Initial(c: Config): State {
    State(Idle, false, Off, 0, None, c.preferred, false, 0, [], 0, [], [])
  }

  function Fail(s: State, error: Error): State {
    if s.settled.Some? then s
    else s.(settled := Some(Failure(error)), phase := Failed, timer := Off, subscribed := false)
  }

  function Succeed(s: State): State {
    if s.settled.Some? then s
    else s.(settled := Some(Downloaded(s.count, s.items)), phase := Complete, timer := Off, subscribed := false)
  }

  function Put(s: State, frame: Frame, send: Send): State {
    s.(sent := s.sent + [frame], outstanding := s.outstanding + [send])
  }

  function AskForList(s: State): State {
    Put(s.(phase := WaitingCount), RequestList, ListSend)
  }

  function Start(c: Config): State {
    if c.address.missionType == MISSION_TYPE_ALL then Fail(Initial(c).(subscribed := true), BadMissionType)
    else AskForList(Initial(c).(subscribed := true))
  }

  /** An unanswered MISSION_REQUEST_INT drops to MISSION_REQUEST, once, while nothing has arrived yet. */
  predicate Downgrades(s: State) {
    s.wire.ItemInt? && s.retries > 0 && s.items == [] && !s.downgraded
  }

  function AskForItem(s: State, seqNo: nat): State {
    var asking := s.(expectedSeq := seqNo, phase := WaitingItem,
                     wire := if Downgrades(s) then ItemFloat else s.wire, downgraded := s.downgraded || Downgrades(s));
    Put(asking, RequestItem(asking.wire, seqNo), ItemSend(seqNo))
  }

  function Finish(s: State): State {
    Put(s.(phase := SendingAck), FinalAck, AckSend)
  }

  function OnCount(s: State, count: nat): State {
    var counted := s.(timer := Off, retries := 0, count := count);
    if count == 0 then Finish(counted) else AskForItem(counted, 0)
  }

  function OnItem(c: Config, s: State, wire: Wire, fields: WireItem): State {
    if fields.seqNo != s.expectedSeq then s
    else
      var taken := s.(timer := Off, retries := 0, items := s.items + [ExtractItem(fields, wire, c.globalFrames)]);
      if fields.seqNo + 1 >= s.count then Finish(taken) else AskForItem(taken, fields.seqNo + 1)
  }

  function OnMessage(c: Config, s: State, p: Packet): State {
    match Screen(c.address, p.header)
    case Ignored => s
    case NeedsMavlink2 => Fail(s, RequiresMavlink2)
    case ForUs =>
      match p.body
      case Ack(result) => if result == MISSION_ACCEPTED then s else Fail(s.(timer := Off), MissionRejected(result))
      case Count(n) => if s.phase.WaitingCount? then OnCount(s, n) else s
      case ItemMessage(wire, fields) => if s.phase.WaitingItem? then OnItem(c, s, wire, fields) else s
  }

  /** The acknowledgement is best effort: the download completes whether or not it goes out. */
  function OnSendDone(s: State, done: Send): State {
    match done
    case ListSend => s.(timer := RepeatList)
    case ItemSend(seqNo) => s.(timer := RepeatItem(seqNo))
    case AckSend => Succeed(s)
  }

  function OnSendFailed(s: State, failed: Send): State {
    if failed.AckSend? then Succeed(s) else Fail(s, SendFailed)
  }

  function OnTimeout(c: Config, s: State): State {
    var fired := s.(timer := Off);
    if s.settled.Some? then fired
    else if s.retries >= c.maxRetries then Fail(fired, MissionTimeout)
    else
      var retrying := fired.(retries := s.retries + 1);
      match s.timer
      case Off => retrying
      case RepeatList => AskForList(retrying)
      case RepeatItem(seqNo) => AskForItem(retrying, seqNo)
  }

  predicate Enabled(s: State, e: Event) {
    match e
    case Deliver(_) => s.subscribed
    case SendDone(at) => at < |s.outstanding|
    case SendFails(at) => at < |s.outstanding|
    case TimerFires => s.timer != Off
    case Abort => true
  }

  function Without(s: State, at: nat): State
    requires at < |s.outstanding|
  {
    s.(outstanding := s.outstanding[..at] + s.outstanding[at + 1..])
  }

  /** An event that is not possible in the state changes nothing. */
  function Step(c: Config, s: State, e: Event): State {
    if !Enabled(s, e) then s
    else match e
      case Deliver(p) => OnMessage(c, s, p)
      case SendDone(at) => OnSendDone(Without(s, at), s.outstanding[at])
      case SendFails(at) => OnSendFailed(Without(s, at), s.outstanding[at])
      case TimerFires => OnTimeout(c, s)
      case Abort => Fail(s, Aborted)
  }

  function Run(c: Config, events: seq<Event>): State {
    if events == [] then Start(c) else Step(c, Run(c, events[..|events| - 1]), events[|events| - 1])
  }

  // The vehicle

  /** An item as the vehicle would show it in each of the two messages. */
  datatype Stored = Stored(asInt: WireItem, asFloat: WireItem)

  function Shown(m: Stored, wire: Wire): WireItem {
    if wire.ItemInt? then m.asInt else m.asFloat
  }

  ghost predicate ValidMission(mission: seq<Stored>) {
    forall k :: 0 <= k < |mission| ==> mission[k].asInt.seqNo == k && mission[k].asFloat.seqNo == k
  }

  /** What the vehicle that holds `mission` can say. */
  ghost predicate Truthful(mission: seq<Stored>, b: Body) {
    match b
    case Count(n) => n == |mission|
    case ItemMessage(wire, fields) => fields.seqNo < |mission| && fields == Shown(mission[fields.seqNo], wire)
    case Ack(_) => true
  }

  ghost predicate VehicleHolds(c: Config, mission: seq<Stored>, events: seq<Event>) {
    forall i :: 0 <= i < |events| && events[i].Deliver? && Screen(c.address, events[i].packet.header) == ForUs ==>
      Truthful(mission, events[i].packet.body)
  }

  /** The item is the mission's k-th, taken from one of the two messages. */
  ghost predicate IsItem(c: Config, m: Stored, item: Item) {
    exists wire :: item == ExtractItem(Shown(m, wire), wire, c.globalFrames)
  }

  ghost predicate IsPrefix(c: Config, mission: seq<Stored>, items: seq<Item>) {
    |items| <= |mission| && forall k :: 0 <= k < |items| ==> IsItem(c, mission[k], items[k])
  }

  // Request types: against any vehicle, in every run

  /** The type of the last request for item 0. */
  function LastZero(sent: seq<Frame>): Option<Wire> {
    if sent == [] then None
    else
      var last := sent[|sent| - 1];
      if last.RequestItem? && last.seqNo == 0 then Some(last.wire) else LastZero(sent[..|sent| - 1])
  }

  ghost predicate OneRequestType(s: State) {
    forall f :: f in s.sent && f.RequestItem? && f.seqNo > 0 ==> Some(f.wire) == LastZero(s.sent)
  }

  /** Before the first item has arrived only item 0 was asked for, is being asked for or may be again. */
  ghost predicate OnlyItemZero(s: State) {
    && (forall f :: f in s.sent && f.RequestItem? ==> f.seqNo == 0)
    && (forall x :: x in s.outstanding && x.ItemSend? ==> x.seqNo == 0)
    && (s.timer.RepeatItem? ==> s.timer.seqNo == 0)
    && (s.phase.WaitingItem? ==> s.expectedSeq == 0)
  }

  ghost predicate TypeIsTrue(s: State) {
    && OneRequestType(s)
    && (if s.items == [] then OnlyItemZero(s) else LastZero(s.sent) == Some(s.wire))
    && (s.phase.WaitingItem? ==> LastZero(s.sent) == Some(s.wire))
  }

  lemma AskKeepsType(s: State, seqNo: nat)
    requires TypeIsTrue(s) && (s.items == [] ==> seqNo == 0)
    ensures TypeIsTrue(AskForItem(s, seqNo))
  {
    var t := AskForItem(s, seqNo);
    assert t.sent == s.sent + [RequestItem(t.wire, seqNo)] && t.sent[..|t.sent| - 1] == s.sent;
  }

  lemma OtherKeepsType(s: State, phase: Phase, frame: Frame, send: Send)
    requires TypeIsTrue(s) && !phase.WaitingItem? && !frame.RequestItem? && !send.ItemSend?
    ensures TypeIsTrue(Put(s.(phase := phase), frame, send))
  {
    assert Put(s.(phase := phase), frame, send).sent[..|s.sent|] == s.sent;
  }

  lemma CountKeepsType(s: State, n: nat)
    requires TypeIsTrue(s)
    ensures TypeIsTrue(OnCount(s, n))
  {
    var counted := s.(timer := Off, retries := 0, count := n);
    if n == 0 {
      OtherKeepsType(counted, SendingAck, FinalAck, AckSend);
    } else {
      AskKeepsType(counted, 0);
    }
  }

  lemma ItemKeepsType(c: Config, s: State, wire: Wire, fields: WireItem)
    requires TypeIsTrue(s) && s.phase.WaitingItem?
    ensures TypeIsTrue(OnItem(c, s, wire, fields))
  {
    var item := ExtractItem(fields, wire, c.globalFrames);
    var taken := s.(timer := Off, retries := 0, items := s.items + [item]);
    if fields.seqNo + 1 >= s.count {
      OtherKeepsType(taken, SendingAck, FinalAck, AckSend);
    } else {
      AskKeepsType(taken, fields.seqNo + 1);
    }
  }

  lemma MessageKeepsType(c: Config, s: State, p: Packet)
    requires TypeIsTrue(s)
    ensures TypeIsTrue(OnMessage(c, s, p))
  {
    match p.body
    case Ack(_) =>
    case Count(n) => CountKeepsType(s, n);
    case ItemMessage(wire, fields) =>
      if s.phase.WaitingItem? {
        ItemKeepsType(c, s, wire, fields);
      }
  }

  lemma QuietKeepsType(s: State, t: State)
    requires TypeIsTrue(s) && t.sent == s.sent && t.outstanding == s.outstanding && t.items == s.items
      && t.wire == s.wire
    requires t.timer == Off && (t.phase == s.phase || !t.phase.WaitingItem?) && t.expectedSeq == s.expectedSeq
    ensures TypeIsTrue(t)
  {
  }

  lemma TimeoutKeepsType(c: Config, s: State)
    requires TypeIsTrue(s)
    ensures TypeIsTrue(OnTimeout(c, s))
  {
    if s.settled.Some? || s.retries >= c.maxRetries || s.timer.Off? {
      QuietKeepsType(s, OnTimeout(c, s));
    } else {
      var retrying := s.(timer := Off, retries := s.retries + 1);
      QuietKeepsType(s, retrying);
      if s.timer.RepeatList? {
        OtherKeepsType(retrying, WaitingCount, RequestList, ListSend);
      } else {
        AskKeepsType(retrying, s.timer.seqNo);
      }
    }
  }

  lemma WithoutKeepsType(s: State, at: nat)
    requires TypeIsTrue(s) && at < |s.outstanding|
    ensures TypeIsTrue(Without(s, at))
    ensures s.items == [] && s.outstanding[at].ItemSend? ==> s.outstanding[at].seqNo == 0
  {
    assert s.outstanding[at] in s.outstanding;
    forall x | x in Without(s, at).outstanding ensures x in s.outstanding {
    }
  }

  lemma CompletionKeepsType(s: State, done: Send)
    requires TypeIsTrue(s) && (s.items == [] && done.ItemSend? ==> done.seqNo == 0)
    ensures TypeIsTrue(OnSendDone(s, done)) && TypeIsTrue(OnSendFailed(s, done))
  {
  }

  lemma StepKeepsType(c: Config, s: State, e: Event)
    requires TypeIsTrue(s)
    ensures TypeIsTrue(Step(c, s, e))
  {
    if Enabled(s, e) {
      match e {
        case Deliver(p) => MessageKeepsType(c, s, p);
        case SendDone(at) =>
          WithoutKeepsType(s, at);
          CompletionKeepsType(Without(s, at), s.outstanding[at]);
        case SendFails(at) =>
          WithoutKeepsType(s, at);
          CompletionKeepsType(Without(s, at), s.outstanding[at]);
        case TimerFires => TimeoutKeepsType(c, s);
        case Abort =>
      }
    }
  }

  /** Whatever the vehicle and the timers do, all requests beyond item 0 use the type of the last request for
      item 0: a transfer is never split between the two message types. */
  lemma {:induction false} RequestsKeepOneType(c: Config, events: seq<Event>)
    ensures TypeIsTrue(Run(c, events)) && OneRequestType(Run(c, events))
  {
    if events != [] {
      RequestsKeepOneType(c, events[..|events| - 1]);
      StepKeepsType(c, Run(c, events[..|events| - 1]), events[|events| - 1]);
    }
  }

  // Why a download settles

  predicate Hears(c: Config, e: Event, b: Body) {
    e.Deliver? && Screen(c.address, e.packet.header) == ForUs && e.packet.body == b
  }

  /** The count a running download waits for arrives. */
  predicate Counted(c: Config, s: State, e: Event) {
    && s.settled.None? && s.phase.WaitingCount? && e.Deliver? && Hears(c, e, e.packet.body) && e.packet.body.Count?
  }

  /** The item it waits for arrives. */
  predicate Taken(c: Config, s: State, e: Event) {
    && s.settled.None? && s.phase.WaitingItem? && e.Deliver? && Hears(c, e, e.packet.body)
    && e.packet.body.ItemMessage? && e.packet.body.fields.seqNo == s.expectedSeq
  }

  /** How often the timer has fired since the last count or item, or since the start. */
  function Silences(c: Config, events: seq<Event>): nat {
    if events == [] then 0
    else
      var before, e := events[..|events| - 1], events[|events| - 1];
      if Counted(c, Run(c, before), e) || Taken(c, Run(c, before), e) then 0
      else Silences(c, before) + if e == TimerFires && Run(c, before).timer != Off then 1 else 0
  }

  /** The running download asks once more for what its timer was armed for. */
  predicate Repeats(c: Config, s: State, silences: nat, e: Event) {
    s.settled.None? && e == TimerFires && silences < c.maxRetries
  }

  /** An item request was repeated before any item had arrived. */
  predicate FellBack(c: Config, events: seq<Event>) {
    if events == [] then false
    else
      var before, e := events[..|events| - 1], events[|events| - 1];
      FellBack(c, before)
      || (Repeats(c, Run(c, before), Silences(c, before), e)
          && Run(c, before).timer.RepeatItem? && Run(c, before).items == [])
  }

  datatype Tally = Tally(silences: nat, fellBack: bool)

  function TallyOf(c: Config, events: seq<Event>): Tally {
    Tally(Silences(c, events), FellBack(c, events))
  }

  /** The message type in which items are asked for. */
  function Type(c: Config, n: Tally): Wire {
    if n.fellBack then ItemFloat else c.preferred
  }

  /** The event ends a send of this kind. */
  predicate Ends(s: State, at: nat, ack: bool) {
    at < |s.outstanding| && (s.outstanding[at] == AckSend <==> ack)
  }

  /** What it takes for the event to settle the running download with this outcome. */
  predicate Causes(c: Config, s: State, n: Tally, e: Event, o: Outcome) {
    match o
    case Downloaded(count, items) =>
      count == s.count && items == s.items && (e.SendDone? || e.SendFails?) && Ends(s, e.at, true)
    case Failure(MissionRejected(r)) => r != MISSION_ACCEPTED && Hears(c, e, Ack(r))
    case Failure(RequiresMavlink2) => e.Deliver? && Screen(c.address, e.packet.header) == NeedsMavlink2
    case Failure(MissionTimeout) => e == TimerFires && s.timer != Off && n.silences == c.maxRetries
    case Failure(SendFailed) => e.SendFails? && Ends(s, e.at, false)
    case Failure(Aborted) => e == Abort
    case Failure(BadMissionType) => false
  }

  /** The download's counters are what the events say. */
  ghost predicate Counts(c: Config, s: State, n: Tally) {
    && (s.subscribed <==> s.settled.None?)
    && (s.settled.Some? ==> s.phase == if s.settled.value.Downloaded? then Complete else Failed)
    && (s.settled.None? ==>
          && s.retries == n.silences <= c.maxRetries && (s.timer != Off || s.outstanding != [])
          && s.wire == Type(c, n) && (s.downgraded <==> n.fellBack && c.preferred.ItemInt?)
          && (s.phase.WaitingItem? ==>
                s.sent != [] && s.sent[|s.sent| - 1].RequestItem? && s.sent[|s.sent| - 1].seqNo == s.expectedSeq))
  }

  lemma HeardCounts(c: Config, s: State, n: Tally, e: Event)
    requires Counts(c, s, n) && (Counted(c, s, e) || Taken(c, s, e))
    ensures Counts(c, Step(c, s, e), n.(silences := 0))
  {
  }

  lemma TimeoutCounts(c: Config, s: State, n: Tally)
    requires Counts(c, s, n) && s.timer != Off
    ensures Counts(c, OnTimeout(c, s), Tally(n.silences + 1,
      n.fellBack || (Repeats(c, s, n.silences, TimerFires) && s.timer.RepeatItem? && s.items == [])))
  {
  }

  lemma OtherCounts(c: Config, s: State, n: Tally, e: Event)
    requires Counts(c, s, n) && !Counted(c, s, e) && !Taken(c, s, e) && !(e.TimerFires? && s.timer != Off)
    ensures Counts(c, Step(c, s, e), n)
  {
  }

  lemma {:induction false} RunCounts(c: Config, events: seq<Event>)
    ensures Counts(c, Run(c, events), TallyOf(c, events))
  {
    if events != [] {
      var before, e := events[..|events| - 1], events[|events| - 1];
      RunCounts(c, before);
      if Counted(c, Run(c, before), e) || Taken(c, Run(c, before), e) {
        HeardCounts(c, Run(c, before), TallyOf(c, before), e);
      } else if e.TimerFires? && Run(c, before).timer != Off {
        TimeoutCounts(c, Run(c, before), TallyOf(c, before));
      } else {
        OtherCounts(c, Run(c, before), TallyOf(c, before), e);
      }
    }
  }

  lemma DeliverySettles(c: Config, s: State, n: Tally, e: Event, o: Outcome)
    requires s.settled.None? && Counts(c, s, n) && e.Deliver?
    ensures Step(c, s, e).settled == Some(o) <==> Causes(c, s, n, e, o)
  {
  }

  lemma SettlesOnCause(c: Config, s: State, n: Tally, e: Event, o: Outcome)
    requires s.settled.None? && Counts(c, s, n)
    ensures Step(c, s, e).settled == Some(o) <==> Causes(c, s, n, e, o)
  {
    if e.Deliver? {
      DeliverySettles(c, s, n, e, o);
    }
  }

  /** The k-th event finds the download running and settles it with this outcome. */
  ghost predicate DecidedBy(c: Config, events: seq<Event>, k: nat, o: Outcome) {
    && k < |events| && Run(c, events[..k]).settled.None?
    && Causes(c, Run(c, events[..k]), TallyOf(c, events[..k]), events[k], o)
  }

  ghost predicate Decided(c: Config, events: seq<Event>, o: Outcome) {
    exists k: nat :: DecidedBy(c, events, k, o)
  }

  lemma DecidedEarlier(c: Config, events: seq<Event>, k: nat, o: Outcome)
    requires k < |events| - 1
    ensures DecidedBy(c, events, k, o) <==> DecidedBy(c, events[..|events| - 1], k, o)
  {
    assert events[..|events| - 1][..k] == events[..k];
  }

  lemma DecidedNext(c: Config, events: seq<Event>, o: Outcome)
    requires events != []
    ensures Decided(c, events, o) <==>
      Decided(c, events[..|events| - 1], o) || DecidedBy(c, events, |events| - 1, o)
  {
    if Decided(c, events, o) {
      var k: nat :| DecidedBy(c, events, k, o);
      if k < |events| - 1 {
        DecidedEarlier(c, events, k, o);
      }
    }
    if Decided(c, events[..|events| - 1], o) {
      var k: nat :| DecidedBy(c, events[..|events| - 1], k, o);
      DecidedEarlier(c, events, k, o);
    }
  }

  lemma SettledStays(c: Config, s: State, e: Event)
    requires s.settled.Some? && !s.subscribed
    ensures Step(c, s, e).settled == s.settled
  {
  }

  /** The outcome of a download is the first thing that decides it: completed by the end of the final acknowledgement's
      send, written out or not, rejected by an acknowledgement with another result, timed out by the silence after
      `maxRetries` others, and so on.  Type ALL fails before anything happens. */
  lemma {:induction false} OutcomeSaysWhy(c: Config, events: seq<Event>, o: Outcome)
    ensures Run(c, events).settled == Some(o) <==>
      if c.address.missionType == MISSION_TYPE_ALL then o == Failure(BadMissionType) else Decided(c, events, o)
  {
    if events != [] {
      var before, e := events[..|events| - 1], events[|events| - 1];
      OutcomeSaysWhy(c, before, o);
      DecidedNext(c, events, o);
      RunCounts(c, before);
      if Run(c, before).settled.None? {
        SettlesOnCause(c, Run(c, before), TallyOf(c, before), e, o);
        OutcomeSaysWhy(c, before, Failure(BadMissionType));
      } else {
        SettledStays(c, Run(c, before), e);
      }
    }
  }

  // What a download sends

  /** The frame that the event makes the download send: the next item, the final acknowledgement, or once more what the
      timer was armed for. */
  predicate Sends(c: Config, s: State, n: Tally, e: Event, f: Frame) {
    match f
    case RequestList => Repeats(c, s, n.silences, e) && s.timer == RepeatList
    case RequestItem(wire, k) =>
      || (Counted(c, s, e) && e.packet.body.count > 0 && k == 0 && wire == Type(c, n))
      || (Taken(c, s, e) && k == s.expectedSeq + 1 < s.count && wire == Type(c, n))
      || (Repeats(c, s, n.silences, e) && s.timer == RepeatItem(k)
          && wire == if s.items == [] then ItemFloat else Type(c, n))
    case FinalAck =>
      || (Counted(c, s, e) && e.packet.body.count == 0)
      || (Taken(c, s, e) && s.expectedSeq + 1 >= s.count)
  }

  predicate Awaited(f: Frame, x: Send) {
    match f
    case RequestList => x == ListSend
    case RequestItem(_, k) => x == ItemSend(k)
    case FinalAck => x == AckSend
  }

  lemma SendsAtMostOne(c: Config, s: State, e: Event)
    ensures Step(c, s, e).sent == s.sent || exists g :: Step(c, s, e).sent == s.sent + [g]
  {
    var t := Step(c, s, e);
    if t.sent != s.sent {
      assert t.sent == s.sent + [t.sent[|s.sent|]];
    }
  }

  lemma DeliverySends(c: Config, s: State, n: Tally, e: Event, f: Frame)
    requires Counts(c, s, n) && e.Deliver?
    ensures Step(c, s, e).sent == s.sent + [f] <==> Sends(c, s, n, e, f)
  {
    var t := Step(c, s, e);
    if t.sent != s.sent {
      assert t.sent == s.sent + [t.sent[|s.sent|]];
      assert (s.sent + [f])[|s.sent|] == f;
    }
  }

  lemma TimeoutSends(c: Config, s: State, n: Tally, f: Frame)
    requires Counts(c, s, n)
    ensures Step(c, s, TimerFires).sent == s.sent + [f] <==> Sends(c, s, n, TimerFires, f)
  {
    var t := Step(c, s, TimerFires);
    if t.sent != s.sent {
      assert t.sent == s.sent + [t.sent[|s.sent|]];
      assert (s.sent + [f])[|s.sent|] == f;
    }
  }

  lemma SendsOnCall(c: Config, s: State, n: Tally, e: Event, f: Frame)
    requires Counts(c, s, n)
    ensures Step(c, s, e).sent == s.sent + [f] <==> Sends(c, s, n, e, f)
  {
    if e.Deliver? {
      DeliverySends(c, s, n, e, f);
    } else if e.TimerFires? {
      TimeoutSends(c, s, n, f);
    } else {
      assert Step(c, s, e).sent == s.sent;
    }
  }

  lemma AwaitsWhatItSends(c: Config, s: State, n: Tally, e: Event, f: Frame)
    requires Counts(c, s, n) && Sends(c, s, n, e, f)
    ensures |Step(c, s, e).outstanding| == |s.outstanding| + 1
    ensures Awaited(f, Step(c, s, e).outstanding[|s.outstanding|])
  {
  }

  /** In every run an event sends nothing or the one frame that it calls for. */
  lemma EveryFrameIsCalledFor(c: Config, events: seq<Event>, e: Event, f: Frame)
    ensures var s, t := Run(c, events), Run(c, events + [e]);
      && (t.sent == s.sent + [f] <==> Sends(c, s, TallyOf(c, events), e, f))
      && (t.sent == s.sent || exists g :: t.sent == s.sent + [g])
      && (Sends(c, s, TallyOf(c, events), e, f) ==>
            |t.outstanding| == |s.outstanding| + 1 && Awaited(f, t.outstanding[|s.outstanding|]))
  {
    assert (events + [e])[..|events|] == events;
    RunCounts(c, events);
    SendsOnCall(c, Run(c, events), TallyOf(c, events), e, f);
    SendsAtMostOne(c, Run(c, events), e);
    if Sends(c, Run(c, events), TallyOf(c, events), e, f) {
      AwaitsWhatItSends(c, Run(c, events), TallyOf(c, events), e, f);
    }
  }

  /** A completed request arms the timer for the frame it was about: what is repeated is what was sent. */
  lemma CompletedSendIsRepeated(c: Config, s: State, n: Tally, at: nat, f: Frame)
    requires Counts(c, s, n) && s.settled.None? && s.retries < c.maxRetries && !f.FinalAck?
    requires at < |s.outstanding| && Awaited(f, s.outstanding[at])
    ensures var t := Step(c, Step(c, s, SendDone(at)), TimerFires);
      && |t.sent| == |s.sent| + 1
      && match t.sent[|s.sent|]
         case RequestList => f.RequestList?
         case RequestItem(_, k) => f.RequestItem? && k == f.seqNo
         case FinalAck => false
  {
  }

  /** What the event leaves the timer armed for: a completed request arms it for what it was about, and it is stopped
      when a count or an item is taken, when it fires and when the download settles. */
  function Rearmed(c: Config, s: State, e: Event, settles: bool, armed: Timer): Timer {
    if settles then Off
    else if e.SendDone? && e.at < |s.outstanding| && s.outstanding[e.at] != AckSend then
      if s.outstanding[e.at].ListSend? then RepeatList else RepeatItem(s.outstanding[e.at].seqNo)
    else if Counted(c, s, e) || Taken(c, s, e) || e == TimerFires then Off
    else armed
  }

  function ArmedFor(c: Config, events: seq<Event>): Timer {
    if events == [] then Off
    else
      var before, e := events[..|events| - 1], events[|events| - 1];
      var settles := Run(c, before).settled.None? && Run(c, events).settled.Some?;
      Rearmed(c, Run(c, before), e, settles, ArmedFor(c, before))
  }

  lemma StepTimer(c: Config, s: State, e: Event)
    requires s.subscribed <==> s.settled.None?
    ensures Step(c, s, e).timer == Rearmed(c, s, e, s.settled.None? && Step(c, s, e).settled.Some?, s.timer)
  {
  }

  lemma {:induction false} TimerTells(c: Config, events: seq<Event>)
    ensures Run(c, events).timer == ArmedFor(c, events)
  {
    if events != [] {
      TimerTells(c, events[..|events| - 1]);
      RunCounts(c, events[..|events| - 1]);
      StepTimer(c, Run(c, events[..|events| - 1]), events[|events| - 1]);
    }
  }

  // Contents

  /** The armed timer would ask again for something that has already arrived. */
  predicate Stale(c: Config, s: State) {
    && s.settled.None? && s.retries < c.maxRetries
    && ((s.timer.RepeatList? && s.items != []) || (s.timer.RepeatItem? && s.timer.seqNo != |s.items|))
  }

  ghost predicate NoStaleTimer(c: Config, events: seq<Event>) {
    forall i :: 0 <= i < |events| && events[i].TimerFires? ==> !Stale(c, Run(c, events[..i]))
  }

  ghost predicate RequestsAreTrue(mission: seq<Stored>, s: State) {
    && (forall x :: x in s.outstanding && x.ItemSend? ==> x.seqNo <= |s.items| && x.seqNo < |mission| == s.count)
    && (forall x :: x in s.outstanding && x.AckSend? ==> |s.items| == |mission| == s.count)
    && (s.timer.RepeatItem? ==> s.timer.seqNo <= |s.items| && s.timer.seqNo < |mission| == s.count)
  }

  ghost predicate PhaseIsTrue(mission: seq<Stored>, s: State) {
    s.settled.None? ==>
      match s.phase
      case WaitingCount => s.items == []
      case WaitingItem => s.expectedSeq == |s.items| < |mission| == s.count
      case SendingAck => |s.items| == |mission| == s.count
      case _ => false
  }

  /** What holds at every moment, for any interleaving, as long as no stale timer fires. */
  ghost predicate Sound(c: Config, mission: seq<Stored>, s: State) {
    && IsPrefix(c, mission, s.items) && RequestsAreTrue(mission, s)
    && (s.subscribed <==> s.settled.None?)
    && (s.settled.Some? && s.settled.value.Downloaded? ==>
          s.settled.value == Downloaded(|mission|, s.items) && |s.items| == |mission|)
    && PhaseIsTrue(mission, s)
  }

  lemma CountStaysSound(c: Config, mission: seq<Stored>, s: State)
    requires Sound(c, mission, s) && s.settled.None? && s.phase.WaitingCount?
    ensures Sound(c, mission, OnCount(s, |mission|))
  {
  }

  lemma ItemStaysSound(c: Config, mission: seq<Stored>, s: State, wire: Wire, fields: WireItem)
    requires Sound(c, mission, s) && s.settled.None? && s.phase.WaitingItem?
    requires Truthful(mission, ItemMessage(wire, fields))
    ensures Sound(c, mission, OnItem(c, s, wire, fields))
  {
    if fields.seqNo == s.expectedSeq {
      var items := s.items + [ExtractItem(fields, wire, c.globalFrames)];
      assert IsItem(c, mission[fields.seqNo], items[fields.seqNo]);
    }
  }

  lemma TimeoutStaysSound(c: Config, mission: seq<Stored>, s: State)
    requires Sound(c, mission, s) && s.timer != Off && !Stale(c, s)
    ensures Sound(c, mission, OnTimeout(c, s))
  {
  }

  ghost predicate SendIsTrue(mission: seq<Stored>, s: State, x: Send) {
    match x
    case ListSend => true
    case ItemSend(k) => k <= |s.items| && k < |mission| == s.count
    case AckSend => |s.items| == |mission| == s.count
  }

  lemma WithoutStaysSound(c: Config, mission: seq<Stored>, s: State, at: nat)
    requires Sound(c, mission, s) && at < |s.outstanding|
    ensures Sound(c, mission, Without(s, at)) && SendIsTrue(mission, Without(s, at), s.outstanding[at])
  {
    assert s.outstanding[at] in s.outstanding;
    assert forall x :: x in Without(s, at).outstanding ==> x in s.outstanding;
  }

  lemma CompletionStaysSound(c: Config, mission: seq<Stored>, s: State, x: Send)
    requires Sound(c, mission, s) && SendIsTrue(mission, s, x)
    ensures Sound(c, mission, OnSendDone(s, x)) && Sound(c, mission, OnSendFailed(s, x))
  {
  }

  lemma StepStaysSound(c: Config, mission: seq<Stored>, s: State, e: Event)
    requires ValidMission(mission) && Sound(c, mission, s) && (e.TimerFires? ==> !Stale(c, s))
    requires e.Deliver? && Screen(c.address, e.packet.header) == ForUs ==> Truthful(mission, e.packet.body)
    ensures Sound(c, mission, Step(c, s, e))
  {
    if Enabled(s, e) {
      match e {
        case Deliver(p) =>
          if Screen(c.address, p.header) == ForUs {
            match p.body {
              case Count(n) =>
                if s.phase.WaitingCount? {
                  CountStaysSound(c, mission, s);
                }
              case ItemMessage(wire, fields) =>
                if s.phase.WaitingItem? {
                  ItemStaysSound(c, mission, s, wire, fields);
                }
              case Ack(_) =>
            }
          }
        case SendDone(at) =>
          WithoutStaysSound(c, mission, s, at);
          CompletionStaysSound(c, mission, Without(s, at), s.outstanding[at]);
        case SendFails(at) =>
          WithoutStaysSound(c, mission, s, at);
          CompletionStaysSound(c, mission, Without(s, at), s.outstanding[at]);
        case TimerFires => TimeoutStaysSound(c, mission, s);
        case Abort =>
      }
    }
  }

  lemma NoStaleTimerBefore(c: Config, events: seq<Event>)
    requires events != [] && NoStaleTimer(c, events)
    ensures NoStaleTimer(c, events[..|events| - 1])
    ensures events[|events| - 1].TimerFires? ==> !Stale(c, Run(c, events[..|events| - 1]))
  {
    var before := events[..|events| - 1];
    forall i | 0 <= i < |before| && before[i].TimerFires? ensures !Stale(c, Run(c, before[..i])) {
      assert before[..i] == events[..i];
    }
  }

  lemma NoStaleTimerNext(c: Config, events: seq<Event>)
    requires events != [] && NoStaleTimer(c, events[..|events| - 1])
    requires events[|events| - 1].TimerFires? ==> !Stale(c, Run(c, events[..|events| - 1]))
    ensures NoStaleTimer(c, events)
  {
    var before := events[..|events| - 1];
    forall i | 0 <= i < |events| && events[i].TimerFires? ensures !Stale(c, Run(c, events[..i])) {
      if i < |before| {
        assert before[i] == events[i] && before[..i] == events[..i];
      }
    }
  }

  lemma {:induction false} RunStaysSound(c: Config, mission: seq<Stored>, events: seq<Event>)
    requires ValidMission(mission) && VehicleHolds(c, mission, events) && NoStaleTimer(c, events)
    ensures Sound(c, mission, Run(c, events))
  {
    if events != [] {
      var before := events[..|events| - 1];
      NoStaleTimerBefore(c, events);
      RunStaysSound(c, mission, before);
      StepStaysSound(c, mission, Run(c, before), events[|events| - 1]);
    }
  }

  predicate Completed(s: State) {
    s.settled.Some? && s.settled.value.Downloaded?
  }

  /** The download has returned exactly the mission. */
  ghost predicate Returns(c: Config, mission: seq<Stored>, s: State) {
    && Completed(s) && s.settled.value.count == |s.settled.value.items| == |mission|
    && IsPrefix(c, mission, s.settled.value.items)
  }

  /** End to end, whatever is lost, repeated, reordered or delayed, as long as no timer asks again for what
      has arrived: at every moment the items are a prefix of the vehicle's mission, a completed download
      returns exactly the mission, and all requests beyond item 0 use the type of the last request for
      item 0. */
  lemma DownloadIsFaithful(c: Config, mission: seq<Stored>, events: seq<Event>)
    requires ValidMission(mission) && VehicleHolds(c, mission, events) && NoStaleTimer(c, events)
    ensures var s := Run(c, events);
      IsPrefix(c, mission, s.items) && (Completed(s) ==> Returns(c, mission, s)) && OneRequestType(s)
  {
    RunStaysSound(c, mission, events);
    RequestsKeepOneType(c, events);
  }

  // Nothing is lost, even if timers go stale

  ghost predicate Has(c: Config, m: Stored, items: seq<Item>) {
    exists item :: item in items && IsItem(c, m, item)
  }

  ghost predicate HasBelow(c: Config, mission: seq<Stored>, items: seq<Item>, k: nat) {
    k <= |mission| && forall j {:trigger Has(c, mission[j], items)} :: 0 <= j < k ==> Has(c, mission[j], items)
  }

  ghost predicate OnlyMission(c: Config, mission: seq<Stored>, items: seq<Item>) {
    forall item :: item in items ==> exists j :: 0 <= j < |mission| && IsItem(c, mission[j], item)
  }

  lemma MoreHasBelow(c: Config, mission: seq<Stored>, items: seq<Item>, more: seq<Item>, k: nat)
    requires HasBelow(c, mission, items, k)
    ensures HasBelow(c, mission, items + more, k)
  {
    forall j | 0 <= j < k ensures Has(c, mission[j], items + more) {
      assert Has(c, mission[j], items);
      var item :| item in items && IsItem(c, mission[j], item);
      assert item in items + more;
    }
  }

  /** Asking for item `k` skips nothing. */
  ghost predicate Covered(c: Config, mission: seq<Stored>, s: State, k: nat) {
    HasBelow(c, mission, s.items, k) && k < |mission| == s.count
  }

  ghost predicate AllIn(c: Config, mission: seq<Stored>, s: State) {
    HasBelow(c, mission, s.items, |mission|) && |mission| == s.count
  }

  ghost predicate SendIsCovered(c: Config, mission: seq<Stored>, s: State, x: Send) {
    match x
    case ListSend => true
    case ItemSend(k) => Covered(c, mission, s, k)
    case AckSend => AllIn(c, mission, s)
  }

  ghost predicate TimerIsCovered(c: Config, mission: seq<Stored>, s: State) {
    s.timer.RepeatItem? ==> Covered(c, mission, s, s.timer.seqNo)
  }

  ghost predicate PhaseIsCovered(c: Config, mission: seq<Stored>, s: State) {
    s.settled.None? ==>
      match s.phase
      case WaitingCount => true
      case WaitingItem => Covered(c, mission, s, s.expectedSeq)
      case SendingAck => AllIn(c, mission, s)
      case _ => false
  }

  ghost predicate SendsAreCovered(c: Config, mission: seq<Stored>, s: State) {
    forall x :: x in s.outstanding ==> SendIsCovered(c, mission, s, x)
  }

  ghost predicate EndIsCovered(c: Config, mission: seq<Stored>, s: State) {
    && (FinalAck in s.sent ==> HasBelow(c, mission, s.items, |mission|))
    && (Completed(s) ==>
          s.settled.value == Downloaded(|mission|, s.items) && HasBelow(c, mission, s.items, |mission|))
  }

  /** What holds at every moment, for any interleaving. */
  ghost predicate Kept(c: Config, mission: seq<Stored>, s: State) {
    && OnlyMission(c, mission, s.items) && (s.subscribed <==> s.settled.None?)
    && SendsAreCovered(c, mission, s) && TimerIsCovered(c, mission, s)
    && PhaseIsCovered(c, mission, s) && EndIsCovered(c, mission, s)
  }

  lemma CountStaysKept(c: Config, mission: seq<Stored>, s: State)
    requires Kept(c, mission, s) && s.settled.None?
    ensures Kept(c, mission, OnCount(s, |mission|))
  {
    var t := OnCount(s, |mission|);
    forall x | x in t.outstanding ensures SendIsCovered(c, mission, t, x) {
      assert x in s.outstanding ==> SendIsCovered(c, mission, s, x);
    }
  }

  lemma OneMoreBelow(c: Config, mission: seq<Stored>, items: seq<Item>, item: Item, k: nat)
    requires HasBelow(c, mission, items, k) && k < |mission| && IsItem(c, mission[k], item)
    ensures HasBelow(c, mission, items + [item], k + 1)
  {
    MoreHasBelow(c, mission, items, [item], k);
    assert item in items + [item];
    assert Has(c, mission[k], items + [item]);
  }

  lemma OneMoreOnly(c: Config, mission: seq<Stored>, items: seq<Item>, item: Item, k: nat)
    requires OnlyMission(c, mission, items) && k < |mission| && IsItem(c, mission[k], item)
    ensures OnlyMission(c, mission, items + [item])
  {
  }

  /** Taking the expected item covers one more and uncovers nothing. */
  lemma TakingKeeps(c: Config, mission: seq<Stored>, s: State, item: Item)
    requires Kept(c, mission, s) && s.settled.None? && s.phase.WaitingItem?
    requires s.expectedSeq < |mission| && IsItem(c, mission[s.expectedSeq], item)
    ensures var t := s.(timer := Off, retries := 0, items := s.items + [item]);
      && Kept(c, mission, t) && HasBelow(c, mission, t.items, s.expectedSeq + 1)
  {
    var t := s.(timer := Off, retries := 0, items := s.items + [item]);
    OneMoreOnly(c, mission, s.items, item, s.expectedSeq);
    OneMoreBelow(c, mission, s.items, item, s.expectedSeq);
    MoreHasBelow(c, mission, s.items, [item], s.expectedSeq);
    forall x | x in t.outstanding ensures SendIsCovered(c, mission, t, x) {
      assert SendIsCovered(c, mission, s, x);
      if x.ItemSend? {
        MoreHasBelow(c, mission, s.items, [item], x.seqNo);
      } else if x.AckSend? {
        MoreHasBelow(c, mission, s.items, [item], |mission|);
      }
    }
    if FinalAck in s.sent {
      MoreHasBelow(c, mission, s.items, [item], |mission|);
    }
  }

  lemma ItemStaysKept(c: Config, mission: seq<Stored>, s: State, wire: Wire, fields: WireItem)
    requires ValidMission(mission) && Kept(c, mission, s) && s.settled.None? && s.phase.WaitingItem?
    requires Truthful(mission, ItemMessage(wire, fields)) && fields.seqNo == s.expectedSeq
    ensures Kept(c, mission, OnItem(c, s, wire, fields))
  {
    var item := ExtractItem(fields, wire, c.globalFrames);
    assert IsItem(c, mission[fields.seqNo], item);
    TakingKeeps(c, mission, s, item);
    var taken := s.(timer := Off, retries := 0, items := s.items + [item]);
    var t := OnItem(c, s, wire, fields);
    forall x | x in t.outstanding ensures SendIsCovered(c, mission, t, x) {
      assert x in s.outstanding ==> SendIsCovered(c, mission, taken, x);
    }
  }

  lemma TimeoutStaysKept(c: Config, mission: seq<Stored>, s: State)
    requires Kept(c, mission, s) && s.timer != Off
    ensures Kept(c, mission, OnTimeout(c, s))
  {
    var t := OnTimeout(c, s);
    forall x | x in t.outstanding ensures SendIsCovered(c, mission, t, x) {
      assert x in s.outstanding ==> SendIsCovered(c, mission, s, x);
    }
  }

  lemma CompletionStaysKept(c: Config, mission: seq<Stored>, s: State, at: nat)
    requires Kept(c, mission, s) && at < |s.outstanding|
    ensures Kept(c, mission, OnSendDone(Without(s, at), s.outstanding[at]))
    ensures Kept(c, mission, OnSendFailed(Without(s, at), s.outstanding[at]))
  {
    assert s.outstanding[at] in s.outstanding && SendIsCovered(c, mission, s, s.outstanding[at]);
    forall x | x in Without(s, at).outstanding ensures SendIsCovered(c, mission, Without(s, at), x) {
      assert x in s.outstanding && SendIsCovered(c, mission, s, x);
    }
  }

  lemma StepStaysKept(c: Config, mission: seq<Stored>, s: State, e: Event)
    requires ValidMission(mission) && Kept(c, mission, s)
    requires e.Deliver? && Screen(c.address, e.packet.header) == ForUs ==> Truthful(mission, e.packet.body)
    ensures Kept(c, mission, Step(c, s, e))
  {
    if Enabled(s, e) {
      match e {
        case Deliver(p) =>
          if Screen(c.address, p.header) == ForUs {
            if p.body.Count? && s.phase.WaitingCount? {
              CountStaysKept(c, mission, s);
            } else if p.body.ItemMessage? && s.phase.WaitingItem? && p.body.fields.seqNo == s.expectedSeq {
              ItemStaysKept(c, mission, s, p.body.wire, p.body.fields);
            }
          }
        case SendDone(at) => CompletionStaysKept(c, mission, s, at);
        case SendFails(at) => CompletionStaysKept(c, mission, s, at);
        case TimerFires => TimeoutStaysKept(c, mission, s);
        case Abort =>
      }
    }
  }

  lemma {:induction false} RunStaysKept(c: Config, mission: seq<Stored>, events: seq<Event>)
    requires ValidMission(mission) && VehicleHolds(c, mission, events)
    ensures Kept(c, mission, Run(c, events))
  {
    if events != [] {
      RunStaysKept(c, mission, events[..|events| - 1]);
      StepStaysKept(c, mission, Run(c, events[..|events| - 1]), events[|events| - 1]);
    }
  }

  /** In every run, stale timers and all: when the final acknowledgement is on the link, and when the download
      completes, every item of the mission is among the items, and nothing else is.  Items can only be repeated. */
  lemma NothingIsLost(c: Config, mission: seq<Stored>, events: seq<Event>)
    requires ValidMission(mission) && VehicleHolds(c, mission, events)
    ensures var s := Run(c, events);
      && OnlyMission(c, mission, s.items)
      && (FinalAck in s.sent ==> HasBelow(c, mission, s.items, |mission|))
      && (Completed(s) ==>
            && s.settled.value.count == |mission|
            && HasBelow(c, mission, s.settled.value.items, |mission|)
            && OnlyMission(c, mission, s.settled.value.items))
  {
    RunStaysKept(c, mission, events);
  }

  lemma PrefixIsWhole(c: Config, mission: seq<Stored>, items: seq<Item>)
    requires ValidMission(mission) && IsPrefix(c, mission, items) && HasBelow(c, mission, items, |mission|)
    ensures |items| == |mission|
  {
    if mission != [] {
      var last := |mission| - 1;
      assert Has(c, mission[last], items);
      var item :| item in items && IsItem(c, mission[last], item);
      var i :| 0 <= i < |items| && items[i] == item;
      assert IsItem(c, mission[i], item) && item.seqNo == Some(i);
    }
  }

  /** If moreover no stale timer fires, then what has arrived by the final acknowledgement is the mission in order. */
  lemma FinalAckMeansAllArrived(c: Config, mission: seq<Stored>, events: seq<Event>)
    requires ValidMission(mission) && VehicleHolds(c, mission, events) && NoStaleTimer(c, events)
    ensures var s := Run(c, events);
      FinalAck in s.sent ==> |s.items| == |mission| && IsPrefix(c, mission, s.items)
  {
    RunStaysSound(c, mission, events);
    NothingIsLost(c, mission, events);
    if FinalAck in Run(c, events).sent {
      PrefixIsWhole(c, mission, Run(c, events).items);
    }
  }

  // A stale timer is never harmless

  function ItemEvent(c: Config, mission: seq<Stored>, k: nat): Event
    requires k < |mission|
  {
    Deliver(Packet(ForUsHeader(c.address), ItemMessage(ItemInt, mission[k].asInt)))
  }

  function CountEvent(c: Config, mission: seq<Stored>): Event {
    Deliver(Packet(ForUsHeader(c.address), Count(|mission|)))
  }

  lemma RunOneMore(c: Config, events: seq<Event>, e: Event)
    ensures Run(c, events + [e]) == Step(c, Run(c, events), e)
  {
    assert (events + [e])[..|events|] == events;
  }

  lemma HoldsOneMore(c: Config, mission: seq<Stored>, events: seq<Event>, e: Event)
    requires VehicleHolds(c, mission, events) && (e.Deliver? ==> Truthful(mission, e.packet.body))
    ensures VehicleHolds(c, mission, events + [e])
  {
  }

  /** Item `k` is being fetched although it is among the items, and so will be all that follow it. */
  ghost predicate Refetching(mission: seq<Stored>, s: State, k: nat) {
    && s.settled.None? && s.subscribed && s.phase.WaitingItem?
    && s.expectedSeq == k < |mission| == s.count && |s.items| > k
  }

  lemma RefetchStep(c: Config, mission: seq<Stored>, s: State, k: nat)
    requires ValidMission(mission) && Refetching(mission, s, k)
    ensures var t := Step(c, s, ItemEvent(c, mission, k));
      && |t.items| == |s.items| + 1
      && if k + 1 < |mission| then Refetching(mission, t, k + 1)
         else t.settled.None? && t.outstanding != [] && t.outstanding[|t.outstanding| - 1] == AckSend
  {
  }

  /** The vehicle answers truthfully from item `k` on, and the download completes with too many items. */
  lemma {:induction false} FinishRefetch(c: Config, mission: seq<Stored>, events: seq<Event>, k: nat)
    returns (more: seq<Event>)
    requires ValidMission(mission) && VehicleHolds(c, mission, events) && Refetching(mission, Run(c, events), k)
    ensures events <= more && VehicleHolds(c, mission, more) && Completed(Run(c, more))
    ensures Run(c, more).settled.value.items == Run(c, more).items
    ensures |Run(c, more).items| == |Run(c, events).items| + |mission| - k
    decreases |mission| - k
  {
    var next := events + [ItemEvent(c, mission, k)];
    RefetchStep(c, mission, Run(c, events), k);
    RunOneMore(c, events, ItemEvent(c, mission, k));
    HoldsOneMore(c, mission, events, ItemEvent(c, mission, k));
    if k + 1 < |mission| {
      more := FinishRefetch(c, mission, next, k + 1);
    } else {
      var done := SendDone(|Run(c, next).outstanding| - 1);
      more := next + [done];
      RunOneMore(c, next, done);
      HoldsOneMore(c, mission, next, done);
    }
  }

  /** A stale timer fires, and the vehicle is asked for what has arrived. */
  lemma StaleTimerRefetches(c: Config, mission: seq<Stored>, s: State)
    requires Sound(c, mission, s) && Stale(c, s)
    ensures var t := Step(c, s, TimerFires);
      && t.items == s.items
      && if s.timer.RepeatItem? then Refetching(mission, t, s.timer.seqNo)
         else Refetching(mission, Step(c, t, CountEvent(c, mission)), 0)
              && Step(c, t, CountEvent(c, mission)).items == s.items
  {
  }

  /** From every run in which a stale timer is armed: if it fires, the vehicle can answer truthfully and the download
      completes with more items than the mission has. */
  lemma StaleTimerSpoils(c: Config, mission: seq<Stored>, events: seq<Event>)
    requires ValidMission(mission) && VehicleHolds(c, mission, events) && NoStaleTimer(c, events)
    requires Stale(c, Run(c, events))
    ensures exists more ::
      && events + [TimerFires] <= more && VehicleHolds(c, mission, more)
      && Completed(Run(c, more)) && |Run(c, more).settled.value.items| > |mission|
  {
    var s := Run(c, events);
    var fired := events + [TimerFires];
    RunStaysSound(c, mission, events);
    StaleTimerRefetches(c, mission, s);
    RunOneMore(c, events, TimerFires);
    HoldsOneMore(c, mission, events, TimerFires);
    if s.timer.RepeatItem? {
      var more := FinishRefetch(c, mission, fired, s.timer.seqNo);
    } else {
      RunOneMore(c, fired, CountEvent(c, mission));
      HoldsOneMore(c, mission, fired, CountEvent(c, mission));
      var more := FinishRefetch(c, mission, fired + [CountEvent(c, mission)], 0);
      assert fired <= more;
    }
  }

  function StaleRun(c: Config, mission: seq<Stored>): seq<Event>
    requires mission != []
  {
    [] + [SendDone(0)] + [CountEvent(c, mission)] + [ItemEvent(c, mission, 0)] + [SendDone(0)]
  }

  /** Item 0 is asked for, and the request is still being written. */
  lemma CountIsAnswered(c: Config, mission: seq<Stored>)
    requires mission != [] && c.address.missionType != MISSION_TYPE_ALL
    ensures var s := Run(c, [] + [SendDone(0)] + [CountEvent(c, mission)]);
      && s.settled.None? && s.subscribed && s.phase == WaitingItem && s.expectedSeq == 0
      && s.items == [] && s.count == |mission| && s.outstanding == [ItemSend(0)]
  {
    RunOneMore(c, [], SendDone(0));
    RunOneMore(c, [] + [SendDone(0)], CountEvent(c, mission));
  }

  /** Item 0 arrives, and then its request's completion arms a timer for it. */
  lemma EarlyItemArmsTimer(c: Config, mission: seq<Stored>, s: State)
    requires ValidMission(mission) && mission != []
    requires s.settled.None? && s.subscribed && s.phase == WaitingItem && s.expectedSeq == 0
    requires s.items == [] && s.outstanding == [ItemSend(0)]
    ensures var t := Step(c, Step(c, s, ItemEvent(c, mission, 0)), SendDone(0));
      && t.settled.None? && t.subscribed && t.retries == 0 && t.timer == RepeatItem(0)
      && |t.items| == 1 && t.count == s.count
  {
  }

  /** A stale timer can be armed: the vehicle's answer overtakes the completion of the request, whose `.then`
      arms a timer for the item that is already there. */
  lemma StaleTimerHappens(c: Config, mission: seq<Stored>)
    requires ValidMission(mission) && mission != [] && c.maxRetries > 0 && c.address.missionType != MISSION_TYPE_ALL
    ensures var events := StaleRun(c, mission);
      && VehicleHolds(c, mission, events) && NoStaleTimer(c, events)
      && Stale(c, Run(c, events)) && Run(c, events).timer == RepeatItem(0)
      && Run(c, events).subscribed && |Run(c, events).items| == 1 && Run(c, events).count == |mission|
  {
    var asked := [] + [SendDone(0)] + [CountEvent(c, mission)];
    var taken := asked + [ItemEvent(c, mission, 0)];
    CountIsAnswered(c, mission);
    RunOneMore(c, asked, ItemEvent(c, mission, 0));
    RunOneMore(c, taken, SendDone(0));
    EarlyItemArmsTimer(c, mission, Run(c, asked));
  }

  // Which downloads can go wrong

  /** What a caller can know beforehand: no retries are allowed, there is nothing to download, or the type is
      one for which nothing is sent. */
  predicate Harmless(c: Config, mission: seq<Stored>) {
    c.maxRetries == 0 || mission == [] || c.address.missionType == MISSION_TYPE_ALL
  }

  lemma {:induction false} AllTypesFailAtOnce(c: Config, events: seq<Event>)
    requires c.address.missionType == MISSION_TYPE_ALL
    ensures Run(c, events).settled == Some(Failure(BadMissionType))
  {
    if events != [] {
      AllTypesFailAtOnce(c, events[..|events| - 1]);
    }
  }

  lemma {:induction false} HarmlessTimersAreNotStale(c: Config, mission: seq<Stored>, events: seq<Event>)
    requires ValidMission(mission) && VehicleHolds(c, mission, events) && Harmless(c, mission)
    ensures NoStaleTimer(c, events)
  {
    if events != [] {
      var before := events[..|events| - 1];
      HarmlessTimersAreNotStale(c, mission, before);
      RunStaysSound(c, mission, before);
      if c.address.missionType == MISSION_TYPE_ALL {
        AllTypesFailAtOnce(c, before);
      }
      assert !Stale(c, Run(c, before));
      NoStaleTimerNext(c, events);
    }
  }

  /** Unless a download is harmless, some run in which the vehicle answers truthfully completes with one item too
      many. */
  lemma ItemIsKeptTwice(c: Config, mission: seq<Stored>) returns (events: seq<Event>)
    requires ValidMission(mission) && !Harmless(c, mission)
    ensures VehicleHolds(c, mission, events) && Completed(Run(c, events))
    ensures Run(c, events).settled.value.items == Run(c, events).items && |Run(c, events).items| == |mission| + 1
  {
    var armed := StaleRun(c, mission);
    StaleTimerHappens(c, mission);
    RunStaysSound(c, mission, armed);
    StaleTimerRefetches(c, mission, Run(c, armed));
    RunOneMore(c, armed, TimerFires);
    HoldsOneMore(c, mission, armed, TimerFires);
    events := FinishRefetch(c, mission, armed + [TimerFires], 0);
  }

  /** In every run the items are a prefix of the vehicle's mission. */
  ghost predicate AlwaysPrefix(c: Config, mission: seq<Stored>) {
    forall events :: VehicleHolds(c, mission, events) ==> IsPrefix(c, mission, Run(c, events).items)
  }

  /** Every run that completes returns exactly the vehicle's mission. */
  ghost predicate AlwaysReturns(c: Config, mission: seq<Stored>) {
    forall events :: VehicleHolds(c, mission, events) && Completed(Run(c, events)) ==>
      Returns(c, mission, Run(c, events))
  }

  /** Over a network that delays, repeats, reorders and loses, downloads are faithful if and only if they are
      harmless: every other configuration and mission has a run that completes with a wrong result. */
  lemma DownloadIsFaithfulIff(c: Config, mission: seq<Stored>)
    requires ValidMission(mission)
    ensures AlwaysPrefix(c, mission) <==> Harmless(c, mission)
    ensures AlwaysReturns(c, mission) <==> Harmless(c, mission)
  {
    if Harmless(c, mission) {
      forall events | VehicleHolds(c, mission, events)
        ensures IsPrefix(c, mission, Run(c, events).items)
        ensures Completed(Run(c, events)) ==> Returns(c, mission, Run(c, events))
      {
        HarmlessTimersAreNotStale(c, mission, events);
        DownloadIsFaithful(c, mission, events);
      }
    } else {
      var events := ItemIsKeptTwice(c, mission);
      assert !IsPrefix(c, mission, Run(c, events).items) && !Returns(c, mission, Run(c, events));
    }
  }

  // From one end to the other

  /** The vehicle holds the mission that was authored, and shows each item in either message. */
  ghost predicate Carries(authored: seq<Item>, preferred: Wire, mission: seq<Stored>) {
    && |mission| == |authored|
    && forall k :: 0 <= k < |mission| ==>
         && mission[k].asInt == BuildItemFields(authored[k], k, ItemInt, preferred)
         && mission[k].asFloat == BuildItemFields(authored[k], k, ItemFloat, preferred)
  }

  /** A download that returns an authored mission shows every item as it was authored, in place. */
  lemma DownloadShowsAuthoredMission(
      c: Config, authored: seq<Item>, preferred: Wire, mission: seq<Stored>, events: seq<Event>, k: nat)
    requires Carries(authored, preferred, mission) && Returns(c, mission, Run(c, events)) && k < |authored|
    ensures |Run(c, events).settled.value.items| == |authored|
    ensures Shows(authored[k], k, preferred, c.globalFrames, Run(c, events).settled.value.items[k])
  {
    var item := Run(c, events).settled.value.items[k];
    assert IsItem(c, mission[k], item);
    var wire :| item == ExtractItem(Shown(mission[k], wire), wire, c.globalFrames);
    DownloadShowsWhatWasAuthored(authored[k], k, wire, preferred, c.globalFrames);
  }

  // Prompt sends are enough

  /** Replies are handled only once the request they answer has been written out. */
  predicate Prompt(c: Config, s: State, e: Event) {
    e.Deliver? && Screen(c.address, e.packet.header) == ForUs ==> forall x :: x in s.outstanding ==> x.AckSend?
  }

  ghost predicate PromptSends(c: Config, events: seq<Event>) {
    forall i :: 0 <= i < |events| ==> Prompt(c, Run(c, events[..i]), events[i])
  }

  /** One request at a time is being written or waited on, and it asks for the first missing item. */
  ghost predicate OneAtATime(s: State) {
    s.settled.None? ==>
      match s.phase
      case WaitingCount =>
        && s.outstanding <= [ListSend]
        && (s.timer == Off || (s.timer == RepeatList && s.outstanding == []))
      case WaitingItem =>
        && s.outstanding <= [ItemSend(s.expectedSeq)]
        && (s.timer == Off || (s.timer == RepeatItem(s.expectedSeq) && s.outstanding == []))
      case SendingAck => s.outstanding == [AckSend] && s.timer == Off
      case _ => false
  }

  lemma DeliverStaysOneAtATime(c: Config, s: State, p: Packet)
    requires OneAtATime(s) && s.settled.None? && Prompt(c, s, Deliver(p))
    ensures OneAtATime(OnMessage(c, s, p))
  {
    if s.outstanding != [] {
      assert s.outstanding[0] in s.outstanding;
    }
  }

  lemma CompletionStaysOneAtATime(s: State)
    requires OneAtATime(s) && s.outstanding != []
    ensures s.settled.None? ==> |s.outstanding| == 1
    ensures OneAtATime(OnSendDone(Without(s, 0), s.outstanding[0]))
    ensures OneAtATime(OnSendFailed(Without(s, 0), s.outstanding[0]))
  {
  }

  lemma TimeoutStaysOneAtATime(c: Config, s: State)
    requires OneAtATime(s) && s.timer != Off
    ensures OneAtATime(OnTimeout(c, s))
  {
  }

  lemma SettledStaysSettled(c: Config, s: State, e: Event)
    requires s.subscribed <==> s.settled.None?
    ensures s.settled.Some? ==> Step(c, s, e).settled.Some?
    ensures Step(c, s, e).subscribed <==> Step(c, s, e).settled.None?
  {
  }

  lemma StepStaysOneAtATime(c: Config, s: State, e: Event)
    requires (s.subscribed <==> s.settled.None?) && OneAtATime(s) && Prompt(c, s, e)
    ensures OneAtATime(Step(c, s, e)) && (Step(c, s, e).subscribed <==> Step(c, s, e).settled.None?)
  {
    SettledStaysSettled(c, s, e);
    if s.settled.None? && Enabled(s, e) {
      match e {
        case Deliver(p) => DeliverStaysOneAtATime(c, s, p);
        case SendDone(_) => CompletionStaysOneAtATime(s);
        case SendFails(_) => CompletionStaysOneAtATime(s);
        case TimerFires => TimeoutStaysOneAtATime(c, s);
        case Abort =>
      }
    }
  }

  lemma PromptSendsBefore(c: Config, events: seq<Event>)
    requires events != [] && PromptSends(c, events)
    ensures PromptSends(c, events[..|events| - 1])
    ensures Prompt(c, Run(c, events[..|events| - 1]), events[|events| - 1])
  {
    var before := events[..|events| - 1];
    forall i | 0 <= i < |before| ensures Prompt(c, Run(c, before[..i]), before[i]) {
      assert before[..i] == events[..i];
    }
  }

  lemma {:induction false} PromptSendsStayOneAtATime(c: Config, events: seq<Event>)
    requires PromptSends(c, events)
    ensures OneAtATime(Run(c, events)) && (Run(c, events).subscribed <==> Run(c, events).settled.None?)
  {
    if events != [] {
      PromptSendsBefore(c, events);
      PromptSendsStayOneAtATime(c, events[..|events| - 1]);
      StepStaysOneAtATime(c, Run(c, events[..|events| - 1]), events[|events| - 1]);
    }
  }

  lemma {:induction false} PromptTimersAreNotStale(c: Config, mission: seq<Stored>, events: seq<Event>)
    requires ValidMission(mission) && VehicleHolds(c, mission, events) && PromptSends(c, events)
    ensures NoStaleTimer(c, events)
  {
    if events != [] {
      var before := events[..|events| - 1];
      PromptSendsBefore(c, events);
      PromptTimersAreNotStale(c, mission, before);
      PromptSendsStayOneAtATime(c, before);
      RunStaysSound(c, mission, before);
      NoStaleTimerNext(c, events);
    }
  }

  /** If every reply is handled only after its request was written out, the download is faithful. */
  lemma PromptDownloadIsFaithful(c: Config, mission: seq<Stored>, events: seq<Event>)
    requires ValidMission(mission) && VehicleHolds(c, mission, events) && PromptSends(c, events)
    ensures var s := Run(c, events);
      NoStaleTimer(c, events) && IsPrefix(c, mission, s.items) && (Completed(s) ==> Returns(c, mission, s))
  {
    PromptTimersAreNotStale(c, mission, events);
    DownloadIsFaithful(c, mission, events);
  }

  // How many frames

  /** The armed timer would repeat a request of an earlier stage of the transfer. */
  predicate Backward(c: Config, s: State) {
    && s.settled.None? && s.retries < c.maxRetries
    && ((s.timer.RepeatList? && !s.phase.WaitingCount?)
        || (s.timer.RepeatItem? && !(s.phase.WaitingItem? && s.timer.seqNo == s.expectedSeq)))
  }

  ghost predicate NoBackwardTimer(c: Config, events: seq<Event>) {
    forall i :: 0 <= i < |events| && events[i].TimerFires? ==> !Backward(c, Run(c, events[..i]))
  }

  /** `stages` requests, each sent once and repeated up to `maxRetries` times. */
  function Allowance(stages: nat, maxRetries: nat): nat {
    if stages == 0 then 0 else Allowance(stages - 1, maxRetries) + maxRetries + 1
  }

  lemma {:induction false} AllowanceIsProduct(stages: nat, maxRetries: nat)
    ensures Allowance(stages, maxRetries) == stages * (maxRetries + 1)
  {
    if stages > 0 {
      AllowanceIsProduct(stages - 1, maxRetries);
      assert stages * (maxRetries + 1) == (stages - 1) * (maxRetries + 1) + (maxRetries + 1);
    }
  }

  lemma {:induction false} AllowanceGrows(fewer: nat, more: nat, maxRetries: nat)
    requires fewer <= more
    ensures Allowance(fewer, maxRetries) <= Allowance(more, maxRetries)
  {
    if fewer < more {
      AllowanceGrows(fewer, more - 1, maxRetries);
    }
  }

  ghost predicate Budgeted(c: Config, s: State) {
    && s.retries <= c.maxRetries && (s.subscribed <==> s.settled.None?)
    && |s.sent| <= Allowance(s.count + 1, c.maxRetries) + 1
    && (s.settled.None? ==>
          match s.phase
          case WaitingCount => s.count == 0 && |s.sent| <= 1 + s.retries
          case WaitingItem =>
            && s.expectedSeq < s.count
            && |s.sent| <= Allowance(s.expectedSeq + 1, c.maxRetries) + 1 + s.retries
          case SendingAck => true
          case _ => false)
  }

  function FrameBound(c: Config, count: nat): nat {
    (count + 1) * (c.maxRetries + 1) + 1
  }

  lemma BudgetAsProduct(c: Config, s: State)
    requires Budgeted(c, s)
    ensures |s.sent| <= FrameBound(c, s.count)
  {
    AllowanceIsProduct(s.count + 1, c.maxRetries);
  }

  lemma CountKeepsBudget(c: Config, s: State, n: nat)
    requires Budgeted(c, s) && s.settled.None? && s.phase.WaitingCount?
    ensures Budgeted(c, OnCount(s, n))
  {
    AllowanceGrows(1, n + 1, c.maxRetries);
    assert Allowance(1, c.maxRetries) == c.maxRetries + 1;
  }

  lemma ItemKeepsBudget(c: Config, s: State, wire: Wire, fields: WireItem)
    requires Budgeted(c, s) && s.settled.None? && s.phase.WaitingItem?
    ensures Budgeted(c, OnItem(c, s, wire, fields))
  {
    assert Allowance(s.expectedSeq + 2, c.maxRetries) == Allowance(s.expectedSeq + 1, c.maxRetries) + c.maxRetries + 1;
    AllowanceGrows(s.expectedSeq + 2, s.count + 1, c.maxRetries);
  }

  lemma MessageKeepsBudget(c: Config, s: State, p: Packet)
    requires Budgeted(c, s) && s.settled.None?
    ensures Budgeted(c, OnMessage(c, s, p))
  {
    match p.body
    case Ack(_) =>
    case Count(n) =>
      if s.phase.WaitingCount? {
        CountKeepsBudget(c, s, n);
      }
    case ItemMessage(wire, fields) =>
      if s.phase.WaitingItem? {
        ItemKeepsBudget(c, s, wire, fields);
      }
  }

  lemma TimeoutKeepsBudget(c: Config, s: State)
    requires Budgeted(c, s) && s.timer != Off && !Backward(c, s)
    ensures Budgeted(c, OnTimeout(c, s))
  {
    assert Allowance(s.expectedSeq + 2, c.maxRetries) == Allowance(s.expectedSeq + 1, c.maxRetries) + c.maxRetries + 1;
    if s.settled.None? && s.phase.WaitingItem? {
      AllowanceGrows(s.expectedSeq + 2, s.count + 1, c.maxRetries);
    }
    assert Allowance(1, c.maxRetries) == c.maxRetries + 1;
  }

  lemma StepKeepsBudget(c: Config, s: State, e: Event)
    requires Budgeted(c, s) && (e.TimerFires? ==> !Backward(c, s))
    ensures Budgeted(c, Step(c, s, e))
  {
    if Enabled(s, e) {
      match e {
        case Deliver(p) => MessageKeepsBudget(c, s, p);
        case TimerFires => TimeoutKeepsBudget(c, s);
        case _ =>
      }
    }
  }

  lemma {:induction false} RunKeepsBudget(c: Config, events: seq<Event>)
    requires NoBackwardTimer(c, events)
    ensures Budgeted(c, Run(c, events))
  {
    if events != [] {
      var before := events[..|events| - 1];
      forall i | 0 <= i < |before| && before[i].TimerFires? ensures !Backward(c, Run(c, before[..i])) {
        assert before[i] == events[i] && before[..i] == events[..i];
      }
      RunKeepsBudget(c, before);
      StepKeepsBudget(c, Run(c, before), events[|events| - 1]);
    }
  }

  /** As long as no timer goes back to an earlier stage, any vehicle gets a bounded number of frames: each of the
      list and item requests at most `maxRetries + 1` times, and one acknowledgement. */
  lemma FramesAreBounded(c: Config, events: seq<Event>)
    requires NoBackwardTimer(c, events)
    ensures |Run(c, events).sent| <= FrameBound(c, Run(c, events).count)
  {
    RunKeepsBudget(c, events);
    BudgetAsProduct(c, Run(c, events));
  }

  lemma PromptTimersAreNotBackward(c: Config, events: seq<Event>)
    requires PromptSends(c, events)
    ensures NoBackwardTimer(c, events)
  {
    forall i | 0 <= i < |events| ensures !Backward(c, Run(c, events[..i])) {
      forall j | 0 <= j < i ensures Prompt(c, Run(c, events[..i][..j]), events[..i][j]) {
        assert events[..i][..j] == events[..j];
      }
      PromptSendsStayOneAtATime(c, events[..i]);
    }
  }

  /** Handling replies only after their request was written out is enough for the bound, against any vehicle. */
  lemma PromptFramesAreBounded(c: Config, events: seq<Event>)
    requires PromptSends(c, events)
    ensures |Run(c, events).sent| <= FrameBound(c, Run(c, events).count)
  {
    PromptTimersAreNotBackward(c, events);
    FramesAreBounded(c, events);
  }

  lemma StepKeepsCount(c: Config, s: State, e: Event)
    ensures Step(c, s, e).count == s.count
      || (e.Deliver? && Screen(c.address, e.packet.header) == ForUs && e.packet.body == Count(Step(c, s, e).count))
  {
  }

  lemma {:induction false} CountIsTrue(c: Config, mission: seq<Stored>, events: seq<Event>)
    requires VehicleHolds(c, mission, events)
    ensures Run(c, events).count == 0 || Run(c, events).count == |mission|
  {
    if events != [] {
      CountIsTrue(c, mission, events[..|events| - 1]);
      StepKeepsCount(c, Run(c, events[..|events| - 1]), events[|events| - 1]);
    }
  }

  /** The request for the list is still being written when its answer could come. */
  ghost predicate Looping(s: State) {
    && s.settled.None? && s.subscribed && s.phase.WaitingCount?
    && s.outstanding != [] && s.outstanding[|s.outstanding| - 1] == ListSend
  }

  lemma LoopCounts(c: Config, mission: seq<Stored>, s: State)
    requires Looping(s)
    ensures var t := Step(c, s, CountEvent(c, mission));
      && t.settled.None? && t.subscribed && t.retries == 0 && |t.sent| == |s.sent| + 1
      && |t.outstanding| == |s.outstanding| + 1 && t.outstanding[|s.outstanding| - 1] == ListSend
  {
  }

  lemma LoopRepeats(c: Config, s: State, at: nat)
    requires c.maxRetries > 0 && s.settled.None? && s.subscribed && s.retries == 0
    requires at < |s.outstanding| && s.outstanding[at] == ListSend
    ensures var t := Step(c, Step(c, s, SendDone(at)), TimerFires);
      Looping(t) && |t.sent| == |s.sent| + 1
  {
  }

  /** The count arrives, then the list request's completion arms a timer for the list, and that fires. */
  lemma LoopOnce(c: Config, mission: seq<Stored>, events: seq<Event>) returns (more: seq<Event>)
    requires c.maxRetries > 0 && VehicleHolds(c, mission, events) && Looping(Run(c, events))
    ensures VehicleHolds(c, mission, more) && Looping(Run(c, more)) && |Run(c, more).sent| > |Run(c, events).sent|
  {
    var at := |Run(c, events).outstanding| - 1;
    var counted := events + [CountEvent(c, mission)];
    var armed := counted + [SendDone(at)];
    more := armed + [TimerFires];
    RunOneMore(c, events, CountEvent(c, mission));
    LoopCounts(c, mission, Run(c, events));
    RunOneMore(c, counted, SendDone(at));
    RunOneMore(c, armed, TimerFires);
    LoopRepeats(c, Run(c, counted), at);
    HoldsOneMore(c, mission, events, CountEvent(c, mission));
    HoldsOneMore(c, mission, counted, SendDone(at));
    HoldsOneMore(c, mission, armed, TimerFires);
  }

  lemma {:induction false} LoopUpTo(c: Config, mission: seq<Stored>, k: nat) returns (events: seq<Event>)
    requires c.maxRetries > 0 && c.address.missionType != MISSION_TYPE_ALL
    ensures VehicleHolds(c, mission, events) && Looping(Run(c, events)) && |Run(c, events).sent| > k
  {
    if k == 0 {
      events := [];
    } else {
      events := LoopUpTo(c, mission, k - 1);
      events := LoopOnce(c, mission, events);
    }
  }

  ghost predicate BoundedBy(c: Config, mission: seq<Stored>, bound: nat) {
    forall events :: VehicleHolds(c, mission, events) ==> |Run(c, events).sent| <= bound
  }

  /** Against a truthful vehicle there is a bound on the frames of all runs if and only if no retries are allowed or
      the type is ALL: a list request that completes after its answer starts the transfer over, without end. */
  lemma FramesAreBoundedIff(c: Config, mission: seq<Stored>)
    ensures (exists bound :: BoundedBy(c, mission, bound)) <==>
      c.maxRetries == 0 || c.address.missionType == MISSION_TYPE_ALL
  {
    if c.maxRetries == 0 || c.address.missionType == MISSION_TYPE_ALL {
      var bound := Allowance(|mission| + 1, c.maxRetries) + 1;
      forall events | VehicleHolds(c, mission, events) ensures |Run(c, events).sent| <= bound {
        forall i | 0 <= i < |events| ensures !Backward(c, Run(c, events[..i])) {
          if c.address.missionType == MISSION_TYPE_ALL {
            AllTypesFailAtOnce(c, events[..i]);
          }
        }
        RunKeepsBudget(c, events);
        CountIsTrue(c, mission, events);
        AllowanceGrows(Run(c, events).count + 1, |mission| + 1, c.maxRetries);
      }
      assert BoundedBy(c, mission, bound);
    } else {
      forall bound: nat ensures !BoundedBy(c, mission, bound) {
        var events := LoopUpTo(c, mission, bound);
      }
    }
  }

  /** The workflow object.  Every method does exactly one of the transitions above. */
  class MissionDownload {
    const config: Config
    var phase: Phase
    var subscribed: bool
    var timer: Timer
    var retries: nat
    var settled: Option<Outcome>
    var wire: Wire
    var downgraded: bool
    var count: nat
    var items: seq<Item>
    var expectedSeq: nat
    var outstanding: seq<Send>
    var sent: seq<Frame>

    ghost function Abs(): State
      reads this
    {
      State(phase, subscribed, timer, retries, settled, wire, downgraded, count, items, expectedSeq, outstanding, sent)
    }

    constructor (config: Config)
      ensures this.config == config && Abs() == Initial(config)
    {
      this.config := config;
      phase, subscribed, timer, retries, settled := Idle, false, Off, 0, None;
      wire, downgraded, count, items, expectedSeq := config.preferred, false, 0, [], 0;
      outstanding, sent := [], [];
    }

    method Begin()
      requires Abs() == Initial(config)
      modifies this
      ensures Abs() == Run(config, [])
    {
      subscribed := true;
      if config.address.missionType == MISSION_TYPE_ALL {
        FailWith(BadMissionType);
      } else {
        RequestMissionList();
      }
    }

    method FailWith(error: Error)
      modifies this
      ensures Abs() == Fail(old(Abs()), error)
    {
      if settled.None? {
        settled, phase, timer, subscribed := Some(Failure(error)), Failed, Off, false;
      }
    }

    method CompleteNow()
      modifies this
      ensures Abs() == Succeed(old(Abs()))
    {
      if settled.None? {
        settled, phase, timer, subscribed := Some(Downloaded(count, items)), Complete, Off, false;
      }
    }

    method SendFrame(frame: Frame, send: Send)
      modifies `sent, `outstanding
      ensures sent == old(sent) + [frame] && outstanding == old(outstanding) + [send]
    {
      sent, outstanding := sent + [frame], outstanding + [send];
    }

    method RequestMissionList()
      modifies this
      ensures Abs() == AskForList(old(Abs()))
    {
      phase := WaitingCount;
      SendFrame(RequestList, ListSend);
    }

    method RequestMissionItem(seqNo: nat)
      modifies this
      ensures Abs() == AskForItem(old(Abs()), seqNo)
    {
      expectedSeq, phase := seqNo, WaitingItem;
      if wire.ItemInt? && retries > 0 && |items| == 0 && !downgraded {
        downgraded, wire := true, ItemFloat;
      }
      SendFrame(RequestItem(wire, seqNo), ItemSend(seqNo));
    }

    method FinishTransfer()
      modifies this
      ensures Abs() == Finish(old(Abs()))
    {
      phase := SendingAck;
      SendFrame(FinalAck, AckSend);
    }

    method Receive(p: Packet)
      modifies this
      ensures Abs() == Step(config, old(Abs()), Deliver(p))
    {
      if !subscribed {
        return;
      }
      var screening := Screen(config.address, p.header);
      if screening.NeedsMavlink2? {
        FailWith(RequiresMavlink2);
      }
      if !screening.ForUs? {
        return;
      }
      match p.body {
        case Ack(result) =>
          if result != MISSION_ACCEPTED {
            timer := Off;
            FailWith(MissionRejected(result));
          }
        case Count(n) =>
          if phase.WaitingCount? {
            TakeCount(n);
          }
        case ItemMessage(kind, fields) =>
          if phase.WaitingItem? && fields.seqNo == expectedSeq {
            TakeItem(kind, fields);
          }
      }
    }

    method TakeCount(n: nat)
      modifies this
      ensures Abs() == OnCount(old(Abs()), n)
    {
      timer, retries, count := Off, 0, n;
      if n == 0 {
        FinishTransfer();
      } else {
        RequestMissionItem(0);
      }
    }

    method TakeItem(kind: Wire, fields: WireItem)
      requires fields.seqNo == expectedSeq
      modifies this
      ensures Abs() == OnItem(config, old(Abs()), kind, fields)
    {
      timer, retries := Off, 0;
      items := items + [ExtractItem(fields, kind, config.globalFrames)];
      if fields.seqNo + 1 >= count {
        FinishTransfer();
      } else {
        RequestMissionItem(fields.seqNo + 1);
      }
    }

    method SendCompleted(at: nat, ok: bool)
      modifies this
      ensures Abs() == Step(config, old(Abs()), if ok then SendDone(at) else SendFails(at))
    {
      if at >= |outstanding| {
        return;
      }
      var done := outstanding[at];
      outstanding := outstanding[..at] + outstanding[at + 1..];
      if done.AckSend? {
        CompleteNow();
      } else if !ok {
        FailWith(SendFailed);
      } else {
        timer := if done.ListSend? then RepeatList else RepeatItem(done.seqNo);
      }
    }

    method TimerExpired()
      modifies this
      ensures Abs() == Step(config, old(Abs()), TimerFires)
    {
      var action := timer;
      timer := Off;
      if action.Off? || settled.Some? {
        return;
      }
      if retries >= config.maxRetries {
        FailWith(MissionTimeout);
        return;
      }
      retries := retries + 1;
      if action.RepeatList? {
        RequestMissionList();
      } else {
        RequestMissionItem(action.seqNo);
      }
    }

    method AbortNow()
      modifies this
      ensures Abs() == Step(config, old(Abs()), Abort)
    {
      FailWith(Aborted);
    }
  }
}
