/** COMMAND_LONG / COMMAND_INT workflows: retransmission until a COMMAND_ACK, and the lock that keeps two
    identical commands apart.

    An acknowledgement carries no transaction id, so it can only be matched by system, component and
    command; the lock is keyed on that triple. */
module CommandWorkflows {
  import opened Wrappers
  import opened LockManagers

  const ACCEPTED := 0
  const IN_PROGRESS := 5

  /** `component` is absent when it is not a number. */
  datatype Key = Key(system: int, component: Option<int>, command: int)

  datatype Config = Config(key: Key, maxRetries: nat, sourceSystem: Option<int>, sourceComponent: Option<int>)

  datatype Phase = Idle | WaitingAck | InProgress | Complete | Failed

  datatype Error = Busy | CommandTimeout | Rejected(result: int) | SendFailed | Aborted

  datatype Outcome = Acknowledged | Failure(error: Error)

  /** `frames` lists the confirmation counters of the commands sent, `releases` counts the calls to the lock
      handle. */
  datatype State = State(
    phase: Phase, confirmation: nat, retries: nat, inProgress: bool, waits: nat, settled: Option<Outcome>,
    subscribed: bool, locked: bool, timer: bool, outstanding: nat, frames: seq<nat>, releases: nat)

  /** Every decoded packet has a component id; the addressing fields may be absent. */
  datatype CommandAck = CommandAck(
    sysid: int, compid: int, command: int, targetSystem: Option<int>, targetComponent: Option<int>, result: int)

  datatype Event = AckArrives(ack: CommandAck) | SendDone | SendFails | TimerFires | Abort

  // One workflow

  function Settle(s: State, outcome: Outcome): State {
    if s.settled.Some? then s
    else s.(settled := Some(outcome), phase := if outcome.Acknowledged? then Complete else Failed,
            timer := false, subscribed := false, locked := false, releases := s.releases + if s.locked then 1 else 0)
  }

  function SendCommand(s: State): State {
    s.(phase := WaitingAck, frames := s.frames + [s.confirmation], outstanding := s.outstanding + 1)
  }

  const Initial := State(Idle, 0, 0, false, 0, None, false, false, false, 0, [], 0)

  function Start(lockHeld: bool): State {
    if lockHeld then Settle(Initial, Failure(Busy))
    else SendCommand(Initial.(locked := true, subscribed := true))
  }

  predicate Names(field: Option<int>, own: Option<int>) {
    own.None? || field.None? || field == Some(0) || field == own
  }

  /** A target component that is 0 or not a number takes any responder. */
  predicate AnyResponder(component: Option<int>) {
    component.None? || component == Some(0)
  }

  predicate Matches(c: Config, a: CommandAck) {
    && a.sysid == c.key.system
    && (AnyResponder(c.key.component) || c.key.component == Some(a.compid))
    && a.command == c.key.command
    && Names(a.targetSystem, c.sourceSystem) && Names(a.targetComponent, c.sourceComponent)
  }

  function OnAck(c: Config, s: State, a: CommandAck): State {
    if !Matches(c, a) then s
    else if a.result == IN_PROGRESS then
      s.(phase := InProgress, inProgress := true, waits := 0, timer := s.settled.None?)
    else Settle(s.(timer := false), if a.result == ACCEPTED then Acknowledged else Failure(Rejected(a.result)))
  }

  function OnTimeout(c: Config, s: State): State {
    var fired := s.(timer := false);
    if s.settled.Some? then fired
    else if s.inProgress then
      if s.waits >= c.maxRetries then Settle(fired, Failure(CommandTimeout))
      else fired.(waits := s.waits + 1, timer := true)
    else if s.retries >= c.maxRetries then Settle(fired, Failure(CommandTimeout))
    else SendCommand(fired.(retries := s.retries + 1, confirmation := (s.confirmation + 1) % 256))
  }

  predicate Enabled(s: State, e: Event) {
    match e
    case AckArrives(_) => s.subscribed
    case SendDone => s.outstanding > 0
    case SendFails => s.outstanding > 0
    case TimerFires => s.timer
    case Abort => true
  }

  /** An event that is not possible in the state changes nothing. */
  function Step(c: Config, s: State, e: Event): State {
    if !Enabled(s, e) then s
    else match e
      case AckArrives(a) => OnAck(c, s, a)
      case SendDone => s.(outstanding := s.outstanding - 1, timer := s.settled.None?)
      case SendFails => Settle(s.(outstanding := s.outstanding - 1), Failure(SendFailed))
      case TimerFires => OnTimeout(c, s)
      case Abort => Settle(s, Failure(Aborted))
  }

  /** What one workflow keeps: the k-th frame carries confirmation k modulo 256 and there are at most
      `maxRetries` beyond the first; the lock is held exactly while the workflow is unsettled, and its
      handle is called exactly once. */
  ghost predicate Regular(c: Config, s: State) {
    && s.retries <= c.maxRetries && s.waits <= c.maxRetries
    && s.confirmation == s.retries % 256
    && (|s.frames| == if s.settled == Some(Failure(Busy)) && s.frames == [] then 0 else s.retries + 1)
    && (forall k :: 0 <= k < |s.frames| ==> s.frames[k] == k % 256)
    && (s.locked <==> s.settled.None?) && (s.subscribed <==> s.settled.None?)
    && (s.timer ==> s.settled.None?)
    && s.releases == if s.settled.Some? && s.frames != [] then 1 else 0
  }

  lemma StartIsRegular(c: Config, lockHeld: bool)
    ensures Regular(c, Start(lockHeld))
  {
  }

  lemma SettleStaysRegular(c: Config, s: State, o: Outcome)
    requires Regular(c, s) && o != Failure(Busy)
    ensures Regular(c, Settle(s, o)) && Settle(s, o).settled.Some?
  {
  }

  lemma TimeoutStaysRegular(c: Config, s: State)
    requires Regular(c, s) && s.timer
    ensures Regular(c, OnTimeout(c, s))
  {
    var fired := s.(timer := false);
    SettleStaysRegular(c, fired, Failure(CommandTimeout));
    assert (s.retries + 1) % 256 == (s.confirmation + 1) % 256;
  }

  lemma AckStaysRegular(c: Config, s: State, a: CommandAck)
    requires Regular(c, s)
    ensures Regular(c, OnAck(c, s, a))
  {
    var o := if a.result == ACCEPTED then Acknowledged else Failure(Rejected(a.result));
    SettleStaysRegular(c, s.(timer := false), o);
  }

  lemma StepStaysRegular(c: Config, s: State, e: Event)
    requires Regular(c, s)
    ensures Regular(c, Step(c, s, e))
  {
    if Enabled(s, e) {
      match e {
        case AckArrives(a) => AckStaysRegular(c, s, a);
        case SendDone =>
        case SendFails => SettleStaysRegular(c, s.(outstanding := s.outstanding - 1), Failure(SendFailed));
        case TimerFires => TimeoutStaysRegular(c, s);
        case Abort => SettleStaysRegular(c, s, Failure(Aborted));
      }
    }
  }

  lemma StepSendsNoMore(c: Config, s: State, e: Event)
    requires Regular(c, s) && (s.inProgress || s.settled.Some?)
    ensures var t := Step(c, s, e);
      t.frames == s.frames && (t.inProgress || t.settled.Some?) && (s.settled.Some? ==> t.settled == s.settled)
  {
  }

  function StepAll(c: Config, s: State, events: seq<Event>): State
    decreases |events|
  {
    if events == [] then s else StepAll(c, Step(c, s, events[0]), events[1..])
  }

  /** After the first IN_PROGRESS, and after settling, nothing is ever sent again; a settled outcome stays. */
  lemma {:induction false} NoFrameAfterProgress(c: Config, s: State, events: seq<Event>)
    requires Regular(c, s) && (s.inProgress || s.settled.Some?)
    ensures var t := StepAll(c, s, events);
      Regular(c, t) && t.frames == s.frames && (s.settled.Some? ==> t.settled == s.settled)
    decreases |events|
  {
    if events != [] {
      StepStaysRegular(c, s, events[0]);
      StepSendsNoMore(c, s, events[0]);
      NoFrameAfterProgress(c, Step(c, s, events[0]), events[1..]);
    }
  }

  /** The acknowledgement names another recipient than us. */
  predicate ForSomeoneElse(c: Config, a: CommandAck) {
    || (c.sourceSystem.Some? && a.targetSystem.Some? && a.targetSystem.value !in {0, c.sourceSystem.value})
    || (c.sourceComponent.Some? && a.targetComponent.Some? && a.targetComponent.value !in {0, c.sourceComponent.value})
  }

  /** Which acknowledgements count: those of our command from the addressed system and component, any component if
      none is addressed, unless they are for someone else. */
  lemma MatchTells(c: Config, a: CommandAck)
    ensures !Matches(c, a) <==>
      || a.command != c.key.command || a.sysid != c.key.system
      || (c.key.component.Some? && c.key.component.value !in {0, a.compid})
      || ForSomeoneElse(c, a)
  {
  }

  // Why a workflow settles

  /** A workflow that got its lock, after the events. */
  function Life(c: Config, events: seq<Event>): State {
    if events == [] then Start(false) else Step(c, Life(c, events[..|events| - 1]), events[|events| - 1])
  }

  predicate Verdict(c: Config, e: Event, result: int) {
    e.AckArrives? && Matches(c, e.ack) && e.ack.result == result
  }

  /** How often the timer has fired since the last IN_PROGRESS, or since the start if there was none. */
  function Silences(c: Config, events: seq<Event>): nat {
    if events == [] then 0
    else
      var before, e := events[..|events| - 1], events[|events| - 1];
      if Verdict(c, e, IN_PROGRESS) && Life(c, before).settled.None? then 0
      else if e == TimerFires && Life(c, before).timer then Silences(c, before) + 1
      else Silences(c, before)
  }

  predicate EndsSend(e: Event) {
    e == SendDone || e == SendFails
  }

  /** How many sends have ended. */
  function Ended(c: Config, events: seq<Event>): nat {
    if events == [] then 0
    else
      var before := events[..|events| - 1];
      var ended := Ended(c, before);
      if EndsSend(events[|events| - 1]) && ended < |Life(c, before).frames| then ended + 1 else ended
  }

  /** The timer runs: it was started by a completed send or an IN_PROGRESS, or by its own firing while the command is in
      progress, and neither fired nor was stopped since. */
  predicate Armed(c: Config, events: seq<Event>) {
    if events == [] then false
    else
      var before, e := events[..|events| - 1], events[|events| - 1];
      if Life(c, events).settled.Some? then false
      else if e == SendDone then Armed(c, before) || Ended(c, before) < |Life(c, before).frames|
      else if Verdict(c, e, IN_PROGRESS) then true
      else if e == TimerFires then Armed(c, before) && Progressed(c, before)
      else Armed(c, before)
  }

  /** What it takes for the event to settle the running workflow with this outcome, after so many silences. */
  predicate Causes(c: Config, s: State, silences: nat, e: Event, o: Outcome) {
    match o
    case Acknowledged => Verdict(c, e, ACCEPTED)
    case Failure(Rejected(r)) => r != ACCEPTED && r != IN_PROGRESS && Verdict(c, e, r)
    case Failure(CommandTimeout) => e == TimerFires && s.timer && silences == c.maxRetries
    case Failure(SendFailed) => e == SendFails && s.outstanding > 0
    case Failure(Aborted) => e == Abort
    case Failure(Busy) => false
  }

  /** The vehicle has said IN_PROGRESS. */
  predicate Progressed(c: Config, events: seq<Event>) {
    events != []
    && (Verdict(c, events[|events| - 1], IN_PROGRESS) || Progressed(c, events[..|events| - 1]))
  }

  /** In progress from an IN_PROGRESS on, waiting for an acknowledgement before, and then the outcome. */
  function PhaseOf(c: Config, events: seq<Event>): Phase {
    if Life(c, events).settled == Some(Acknowledged) then Complete
    else if Life(c, events).settled.Some? then Failed
    else if Progressed(c, events) then InProgress
    else WaitingAck
  }

  /** The workflow's counters and its timer are what the events say, and while it runs it waits for a send or for its
      timer. */
  ghost predicate Awaits(c: Config, events: seq<Event>) {
    var s := Life(c, events);
    && Regular(c, s)
    && (s.settled.None? ==> Silences(c, events) == (if s.inProgress then s.waits else s.retries))
    && s.phase == PhaseOf(c, events) && (s.settled.None? ==> (s.inProgress <==> Progressed(c, events)))
    && s.outstanding + Ended(c, events) == |s.frames| && (s.timer <==> Armed(c, events))
    && (s.settled.None? ==> s.timer || s.outstanding > 0)
  }

  lemma StepOutstanding(c: Config, s: State, e: Event)
    ensures var t := Step(c, s, e);
      t.outstanding + (if EndsSend(e) && s.outstanding > 0 then 1 else 0) + |s.frames| == s.outstanding + |t.frames|
  {
  }

  lemma StepTimer(c: Config, s: State, e: Event)
    requires Regular(c, s)
    ensures var t := Step(c, s, e);
      t.timer <==>
        if t.settled.Some? then false
        else if e == SendDone then s.timer || s.outstanding > 0
        else if Verdict(c, e, IN_PROGRESS) then true
        else if e == TimerFires then s.timer && s.inProgress
        else s.timer
  {
  }

  lemma StepPhase(c: Config, s: State, e: Event)
    requires Regular(c, s) && s.settled.None? && s.phase == if s.inProgress then InProgress else WaitingAck
    ensures var t := Step(c, s, e);
      && (t.inProgress <==> s.inProgress || Verdict(c, e, IN_PROGRESS))
      && t.phase ==
           if t.settled == Some(Acknowledged) then Complete
           else if t.settled.Some? then Failed
           else if t.inProgress then InProgress else WaitingAck
  {
  }

  lemma StepSilences(c: Config, s: State, e: Event)
    requires Regular(c, s) && s.settled.None? && (s.timer || s.outstanding > 0)
    ensures var t := Step(c, s, e);
      t.settled.None? ==>
        && (t.timer || t.outstanding > 0)
        && (if t.inProgress then t.waits else t.retries) ==
             if Verdict(c, e, IN_PROGRESS) then 0
             else (if s.inProgress then s.waits else s.retries) + if e == TimerFires && s.timer then 1 else 0
  {
  }

  lemma SettledStepsStay(c: Config, s: State, e: Event)
    requires Regular(c, s) && s.settled.Some?
    ensures Step(c, s, e).phase == s.phase && Step(c, s, e).settled == s.settled
  {
  }

  lemma LifeNext(c: Config, events: seq<Event>)
    requires events != [] && Awaits(c, events[..|events| - 1])
    ensures Awaits(c, events)
  {
    var s, e := Life(c, events[..|events| - 1]), events[|events| - 1];
    StepStaysRegular(c, s, e);
    StepOutstanding(c, s, e);
    StepTimer(c, s, e);
    if s.settled.None? {
      StepPhase(c, s, e);
      StepSilences(c, s, e);
    } else {
      SettledStepsStay(c, s, e);
    }
  }

  lemma {:induction false} LifeAwaits(c: Config, events: seq<Event>)
    ensures Awaits(c, events)
  {
    if events == [] {
      StartIsRegular(c, false);
    } else {
      LifeAwaits(c, events[..|events| - 1]);
      LifeNext(c, events);
    }
  }

  lemma SettlesOnCause(c: Config, s: State, silences: nat, e: Event, o: Outcome)
    requires s.settled.None? && s.subscribed && s.retries <= c.maxRetries && s.waits <= c.maxRetries
    requires silences == if s.inProgress then s.waits else s.retries
    ensures Step(c, s, e).settled == Some(o) <==> Causes(c, s, silences, e, o)
  {
  }

  /** The k-th event finds the workflow running and settles it with this outcome. */
  ghost predicate DecidedBy(c: Config, events: seq<Event>, k: nat, o: Outcome) {
    && k < |events| && Life(c, events[..k]).settled.None?
    && Causes(c, Life(c, events[..k]), Silences(c, events[..k]), events[k], o)
  }

  ghost predicate Decided(c: Config, events: seq<Event>, o: Outcome) {
    exists k: nat :: DecidedBy(c, events, k, o)
  }

  lemma DecidedEarlier(c: Config, events: seq<Event>, k: nat, o: Outcome)
    requires k < |events| - 1
    ensures DecidedBy(c, events, k, o) <==> DecidedBy(c, events[..|events| - 1], k, o)
  {
    assert events[..|events| - 1][..k] == events[..k];
  }

  lemma DecidedNext(c: Config, events: seq<Event>, o: Outcome)
    requires events != []
    ensures Decided(c, events, o) <==>
      Decided(c, events[..|events| - 1], o) || DecidedBy(c, events, |events| - 1, o)
  {
    if Decided(c, events, o) {
      var k: nat :| DecidedBy(c, events, k, o);
      if k < |events| - 1 {
        DecidedEarlier(c, events, k, o);
      }
    }
    if Decided(c, events[..|events| - 1], o) {
      var k: nat :| DecidedBy(c, events[..|events| - 1], k, o);
      DecidedEarlier(c, events, k, o);
    }
  }

  /** The outcome of a workflow is the first thing that decides it: accepted by the first final acknowledgement with
      result 0, rejected by one with that result, timed out by the silence after `maxRetries` others, or failed by
      the failure of a send or an abort. */
  lemma {:induction false} OutcomeSaysWhy(c: Config, events: seq<Event>, o: Outcome)
    ensures Life(c, events).settled == Some(o) <==> Decided(c, events, o)
  {
    if events != [] {
      var before, e := events[..|events| - 1], events[|events| - 1];
      OutcomeSaysWhy(c, before, o);
      DecidedNext(c, events, o);
      LifeAwaits(c, before);
      if Life(c, before).settled.None? {
        SettlesOnCause(c, Life(c, before), Silences(c, before), e, o);
      } else {
        StepSendsNoMore(c, Life(c, before), e);
      }
    }
  }

  // Many workflows on one connection

  datatype Flow = Flow(config: Config, state: State)

  datatype World = World(locks: map<Key, string>, flows: seq<Flow>)

  /** `Launch` starts a workflow, `Act` is an event of one workflow, `Dispatch` an acknowledgement handed to every
      subscriber in turn, `ClearLocks` the teardown of the connection's locks. */
  datatype Move = Launch(config: Config) | Act(at: nat, event: Event) | Dispatch(ack: CommandAck) | ClearLocks

  function Digits(n: nat): string {
    (if n < 10 then "" else Digits(n / 10)) + [('0' as int + n % 10) as char]
  }

  function Owner(k: Key): string {
    "command-" + (if k.command < 0 then "-" + Digits(-k.command) else Digits(k.command))
  }

  function Apply(w: World, at: nat, s: State): World
    requires at < |w.flows|
  {
    var flow := w.flows[at];
    World(if flow.state.locked && !s.locked
          then AfterRelease(w.locks, flow.config.key, Named(Owner(flow.config.key))) else w.locks,
          w.flows[at := Flow(flow.config, s)])
  }

  function ActStep(w: World, at: nat, e: Event): World
    requires at < |w.flows|
  {
    Apply(w, at, Step(w.flows[at].config, w.flows[at].state, e))
  }

  function LaunchStep(w: World, c: Config): World {
    if c.key in w.locks then w.(flows := w.flows + [Flow(c, Start(true))])
    else World(w.locks[c.key := Holder(Named(Owner(c.key)))], w.flows + [Flow(c, Start(false))])
  }

  /** The acknowledgement after the first `upTo` subscribers have seen it. */
  function DispatchTo(w: World, ack: CommandAck, upTo: nat): (r: World)
    requires upTo <= |w.flows|
    ensures |r.flows| == |w.flows|
  {
    if upTo == 0 then w else ActStep(DispatchTo(w, ack, upTo - 1), upTo - 1, AckArrives(ack))
  }

  function Play(w: World, m: Move): World {
    match m
    case Launch(c) => LaunchStep(w, c)
    case Act(at, e) => if at < |w.flows| then ActStep(w, at, e) else w
    case Dispatch(ack) => DispatchTo(w, ack, |w.flows|)
    case ClearLocks => w.(locks := map[])
  }

  function PlayAll(moves: seq<Move>): World {
    if moves == [] then World(map[], []) else Play(PlayAll(moves[..|moves| - 1]), moves[|moves| - 1])
  }

  predicate Running(f: Flow) {
    f.state.settled.None?
  }

  /** At most one unsettled workflow per key, and the locks held are exactly those of the unsettled ones. */
  ghost predicate LocksMatch(w: World) {
    && (forall i, j :: 0 <= i < j < |w.flows| && Running(w.flows[i]) && Running(w.flows[j]) ==>
          w.flows[i].config.key != w.flows[j].config.key)
    && (forall i :: 0 <= i < |w.flows| && Running(w.flows[i]) ==> w.flows[i].config.key in w.locks)
    && (forall k {:trigger HeldByOne(w, k)} :: k in w.locks ==> w.locks[k] == Owner(k) && HeldByOne(w, k))
  }

  ghost predicate HeldByOne(w: World, k: Key) {
    exists i :: 0 <= i < |w.flows| && Running(w.flows[i]) && w.flows[i].config.key == k
  }

  ghost predicate AllRegular(w: World) {
    forall f :: f in w.flows ==> Regular(f.config, f.state)
  }

  ghost predicate Exclusive(w: World) {
    AllRegular(w) && LocksMatch(w)
  }

  lemma ApplyKeepsLocks(w: World, at: nat, s: State)
    requires LocksMatch(w) && at < |w.flows|
    requires (w.flows[at].state.locked <==> Running(w.flows[at])) && (s.locked <==> s.settled.None?)
    requires w.flows[at].state.settled.Some? ==> s.settled.Some?
    ensures LocksMatch(Apply(w, at, s))
  {
    var t := Apply(w, at, s);
    forall k | k in t.locks ensures t.locks[k] == Owner(k) && HeldByOne(t, k) {
      assert HeldByOne(w, k);
      var i :| 0 <= i < |w.flows| && Running(w.flows[i]) && w.flows[i].config.key == k;
      assert Running(t.flows[i]);
    }
  }

  lemma ActStaysExclusive(w: World, at: nat, e: Event)
    requires Exclusive(w) && at < |w.flows|
    ensures Exclusive(ActStep(w, at, e))
  {
    var flow := w.flows[at];
    assert flow in w.flows;
    var s := Step(flow.config, flow.state, e);
    StepStaysRegular(flow.config, flow.state, e);
    if flow.state.settled.Some? {
      StepSendsNoMore(flow.config, flow.state, e);
    }
    ApplyKeepsLocks(w, at, s);
    forall f | f in ActStep(w, at, e).flows ensures f == Flow(flow.config, s) || f in w.flows {
    }
  }

  lemma {:induction false} DispatchStaysExclusive(w: World, ack: CommandAck, upTo: nat)
    requires Exclusive(w) && upTo <= |w.flows|
    ensures Exclusive(DispatchTo(w, ack, upTo))
  {
    if upTo > 0 {
      DispatchStaysExclusive(w, ack, upTo - 1);
      var before := DispatchTo(w, ack, upTo - 1);
      assert Exclusive(ActStep(before, upTo - 1, AckArrives(ack))) by {
        ActStaysExclusive(before, upTo - 1, AckArrives(ack));
      }
    }
  }

  /** Every subscriber sees the acknowledgement in the state it was in before the dispatch. */
  lemma {:induction false} DispatchReachesEach(w: World, ack: CommandAck, upTo: nat, i: nat)
    requires upTo <= |w.flows| && i < |w.flows|
    ensures DispatchTo(w, ack, upTo).flows[i] ==
      if i < upTo then Flow(w.flows[i].config, Step(w.flows[i].config, w.flows[i].state, AckArrives(ack)))
      else w.flows[i]
  {
    if upTo > 0 {
      DispatchReachesEach(w, ack, upTo - 1, i);
    }
  }

  lemma StillHeld(w: World, c: Config, k: Key)
    requires HeldByOne(w, k)
    ensures HeldByOne(LaunchStep(w, c), k)
  {
    var i :| 0 <= i < |w.flows| && Running(w.flows[i]) && w.flows[i].config.key == k;
    assert LaunchStep(w, c).flows[i] == w.flows[i];
  }

  lemma LaunchKeepsLocks(w: World, c: Config)
    requires LocksMatch(w)
    ensures LocksMatch(LaunchStep(w, c))
  {
    var t := LaunchStep(w, c);
    forall k | k in t.locks ensures t.locks[k] == Owner(k) && HeldByOne(t, k) {
      if k in w.locks {
        assert HeldByOne(w, k);
        StillHeld(w, c, k);
      } else {
        assert Running(t.flows[|w.flows|]);
      }
    }
  }

  lemma LaunchStaysExclusive(w: World, c: Config)
    requires Exclusive(w)
    ensures Exclusive(LaunchStep(w, c))
  {
    StartIsRegular(c, c.key in w.locks);
    LaunchKeepsLocks(w, c);
  }

  predicate NoneRunning(w: World) {
    forall f :: f in w.flows ==> !Running(f)
  }

  /** The locks are only ever cleared while no workflow is running. */
  ghost predicate ClearsWhenIdle(moves: seq<Move>) {
    forall k :: 0 <= k < |moves| && moves[k].ClearLocks? ==> NoneRunning(PlayAll(moves[..k]))
  }

  lemma ClearStaysRegular(w: World)
    requires AllRegular(w)
    ensures AllRegular(w.(locks := map[])) && (NoneRunning(w) ==> LocksMatch(w.(locks := map[])))
  {
    var cleared := w.(locks := map[]);
    forall i | 0 <= i < |cleared.flows| ensures NoneRunning(w) ==> !Running(cleared.flows[i]) {
      assert cleared.flows[i] in w.flows;
    }
  }

  lemma PlayStaysExclusive(w: World, m: Move)
    requires Exclusive(w) && (m.ClearLocks? ==> NoneRunning(w))
    ensures Exclusive(Play(w, m))
  {
    match m
    case Launch(c) => LaunchStaysExclusive(w, c);
    case Act(at, e) =>
      if at < |w.flows| {
        ActStaysExclusive(w, at, e);
      }
    case Dispatch(ack) => DispatchStaysExclusive(w, ack, |w.flows|);
    case ClearLocks => ClearStaysRegular(w);
  }

  lemma ClearsWhenIdleBefore(moves: seq<Move>)
    requires moves != [] && ClearsWhenIdle(moves)
    ensures ClearsWhenIdle(moves[..|moves| - 1])
    ensures moves[|moves| - 1].ClearLocks? ==> NoneRunning(PlayAll(moves[..|moves| - 1]))
  {
    var before := moves[..|moves| - 1];
    forall k | 0 <= k < |before| && before[k].ClearLocks? ensures NoneRunning(PlayAll(before[..k])) {
      assert before[..k] == moves[..k] && moves[k].ClearLocks?;
    }
  }

  /** Over every run in which the connection is not torn down under a running workflow, two unsettled
      workflows never share a system, component and command; each is regular, so it releases its lock
      exactly once. */
  lemma {:induction false} RunStaysExclusive(moves: seq<Move>)
    requires ClearsWhenIdle(moves)
    ensures Exclusive(PlayAll(moves))
  {
    if moves != [] {
      ClearsWhenIdleBefore(moves);
      RunStaysExclusive(moves[..|moves| - 1]);
      PlayStaysExclusive(PlayAll(moves[..|moves| - 1]), moves[|moves| - 1]);
    }
  }

  lemma ClearsWhenIdleUpTo(moves: seq<Move>, k: nat)
    requires k <= |moves| && ClearsWhenIdle(moves)
    ensures ClearsWhenIdle(moves[..k])
  {
    forall j | 0 <= j < k && moves[..k][j].ClearLocks? ensures NoneRunning(PlayAll(moves[..k][..j])) {
      assert moves[..k][..j] == moves[..j] && moves[j].ClearLocks?;
    }
  }

  lemma ClearUnderWorkflowSpoils(moves: seq<Move>, k: nat)
    requires k < |moves| && moves[k].ClearLocks? && !NoneRunning(PlayAll(moves[..k]))
    ensures !LocksMatch(PlayAll(moves[..k + 1]))
  {
    assert moves[..k + 1][..k] == moves[..k];
    var w, cleared := PlayAll(moves[..k]), PlayAll(moves[..k + 1]);
    assert cleared == w.(locks := map[]);
    var f :| f in w.flows && Running(f);
    var i :| 0 <= i < |w.flows| && w.flows[i] == f;
    assert Running(cleared.flows[i]) && cleared.flows[i].config.key !in cleared.locks;
  }

  /** The condition is exact: a run keeps workflows and locks matched throughout if and only if the locks are
      never cleared under a running workflow. */
  lemma ExclusiveIffClearsWhenIdle(moves: seq<Move>)
    ensures (forall k :: 0 <= k <= |moves| ==> Exclusive(PlayAll(moves[..k]))) <==> ClearsWhenIdle(moves)
  {
    if ClearsWhenIdle(moves) {
      forall k | 0 <= k <= |moves| ensures Exclusive(PlayAll(moves[..k])) {
        ClearsWhenIdleUpTo(moves, k);
        RunStaysExclusive(moves[..k]);
      }
    } else {
      var k :| 0 <= k < |moves| && moves[k].ClearLocks? && !NoneRunning(PlayAll(moves[..k]));
      ClearUnderWorkflowSpoils(moves, k);
      assert !Exclusive(PlayAll(moves[..k + 1]));
    }
  }

  // What one acknowledgement settles

  predicate SettlesIt(f: Flow, ack: CommandAck) {
    Running(f) && !Running(Flow(f.config, Step(f.config, f.state, AckArrives(ack))))
  }

  lemma SettlesIff(f: Flow, ack: CommandAck)
    requires Regular(f.config, f.state)
    ensures SettlesIt(f, ack) <==> Running(f) && Matches(f.config, ack) && ack.result != IN_PROGRESS
  {
  }

  /** Among workflows that address one component each, an acknowledgement settles at most one. */
  lemma AckSettlesAtMostOne(w: World, ack: CommandAck, i: nat, j: nat)
    requires Exclusive(w) && i < |w.flows| && j < |w.flows|
    requires !AnyResponder(w.flows[i].config.key.component) && !AnyResponder(w.flows[j].config.key.component)
    requires SettlesIt(w.flows[i], ack) && SettlesIt(w.flows[j], ack)
    ensures i == j
  {
    assert w.flows[i] in w.flows && w.flows[j] in w.flows;
    SettlesIff(w.flows[i], ack);
    SettlesIff(w.flows[j], ack);
    assert w.flows[i].config.key == w.flows[j].config.key;
  }

  /** The same over runs: no dispatch settles two workflows that address one component each. */
  lemma DispatchSettlesAtMostOne(moves: seq<Move>, ack: CommandAck, i: nat, j: nat)
    requires ClearsWhenIdle(moves)
    requires i < |PlayAll(moves).flows| && j < |PlayAll(moves).flows|
    requires var w := PlayAll(moves);
      !AnyResponder(w.flows[i].config.key.component) && !AnyResponder(w.flows[j].config.key.component)
    requires var w, t := PlayAll(moves), DispatchTo(PlayAll(moves), ack, |PlayAll(moves).flows|);
      Running(w.flows[i]) && Running(w.flows[j]) && !Running(t.flows[i]) && !Running(t.flows[j])
    ensures i == j
  {
    var w := PlayAll(moves);
    RunStaysExclusive(moves);
    DispatchReachesEach(w, ack, |w.flows|, i);
    DispatchReachesEach(w, ack, |w.flows|, j);
    AckSettlesAtMostOne(w, ack, i, j);
  }

  // Clearing the locks under a running workflow

  lemma ActStaysRegular(w: World, at: nat, e: Event)
    requires AllRegular(w) && at < |w.flows|
    ensures AllRegular(ActStep(w, at, e))
  {
    var flow := w.flows[at];
    assert flow in w.flows;
    StepStaysRegular(flow.config, flow.state, e);
    forall f | f in ActStep(w, at, e).flows ensures Regular(f.config, f.state) {
      assert f == Flow(flow.config, Step(flow.config, flow.state, e)) || f in w.flows;
    }
  }

  lemma {:induction false} DispatchStaysRegular(w: World, ack: CommandAck, upTo: nat)
    requires AllRegular(w) && upTo <= |w.flows|
    ensures AllRegular(DispatchTo(w, ack, upTo))
  {
    if upTo > 0 {
      DispatchStaysRegular(w, ack, upTo - 1);
      ActStaysRegular(DispatchTo(w, ack, upTo - 1), upTo - 1, AckArrives(ack));
    }
  }

  /** Whatever happens to the locks, each workflow by itself stays regular. */
  lemma {:induction false} RunStaysRegular(moves: seq<Move>)
    ensures AllRegular(PlayAll(moves))
  {
    if moves != [] {
      var w := PlayAll(moves[..|moves| - 1]);
      RunStaysRegular(moves[..|moves| - 1]);
      match moves[|moves| - 1] {
        case Launch(c) => StartIsRegular(c, c.key in w.locks);
        case Act(at, e) =>
          if at < |w.flows| {
            ActStaysRegular(w, at, e);
          }
        case Dispatch(ack) => DispatchStaysRegular(w, ack, |w.flows|);
        case ClearLocks =>
      }
    }
  }

  /** Exactly, in any run: some acknowledgement settles two unsettled workflows at once if and only if they send
      one command to one system and at least one of them takes any responder, or both name the same component. */
  lemma TwoSettledIff(moves: seq<Move>, i: nat, j: nat)
    requires i < j < |PlayAll(moves).flows| && Running(PlayAll(moves).flows[i]) && Running(PlayAll(moves).flows[j])
    ensures var f, g := PlayAll(moves).flows[i], PlayAll(moves).flows[j];
      (exists ack :: SettlesIt(f, ack) && SettlesIt(g, ack)) <==> Confusable(f.config.key, g.config.key)
  {
    var w := PlayAll(moves);
    RunStaysRegular(moves);
    assert w.flows[i] in w.flows && w.flows[j] in w.flows;
    var a, b := w.flows[i].config.key, w.flows[j].config.key;
    forall ack | SettlesIt(w.flows[i], ack) && SettlesIt(w.flows[j], ack) ensures Confusable(a, b) {
      SettlesIff(w.flows[i], ack);
      SettlesIff(w.flows[j], ack);
    }
    if Confusable(a, b) {
      var comp := if !AnyResponder(a.component) then a.component.value
                  else if !AnyResponder(b.component) then b.component.value else 1;
      var ack := CommandAck(a.system, comp, a.command, None, None, ACCEPTED);
      SettlesIff(w.flows[i], ack);
      SettlesIff(w.flows[j], ack);
    }
  }

  predicate Confusable(a: Key, b: Key) {
    && a.system == b.system && a.command == b.command
    && (AnyResponder(a.component) || AnyResponder(b.component) || a.component == b.component)
  }

  lemma PlayOneMore(moves: seq<Move>, m: Move)
    ensures PlayAll(moves + [m]) == Play(PlayAll(moves), m)
  {
    assert (moves + [m])[..|moves|] == moves;
  }

  /** From every run with a running workflow: once the locks are cleared its twin can start beside it; and since
      both call their locks by one owner name, the first to settle gives away the lock of the other. */
  lemma ClearedLocksDoNotExclude(moves: seq<Move>, i: nat)
    requires i < |PlayAll(moves).flows| && Running(PlayAll(moves).flows[i])
    ensures var twin := |PlayAll(moves).flows|;
      var w := PlayAll(moves + [ClearLocks] + [Launch(PlayAll(moves).flows[i].config)]);
      && |w.flows| == twin + 1 && Running(w.flows[i]) && Running(w.flows[twin])
      && w.flows[i].config == w.flows[twin].config && !LocksMatch(w)
    ensures var twin := |PlayAll(moves).flows|;
      var w := PlayAll(moves + [ClearLocks] + [Launch(PlayAll(moves).flows[i].config)] + [Act(i, Abort)]);
      |w.flows| == twin + 1 && Running(w.flows[twin]) && w.flows[twin].state.locked && w.locks == map[]
  {
    var w0 := PlayAll(moves);
    var c := w0.flows[i].config;
    var cleared := moves + [ClearLocks];
    var launched := cleared + [Launch(c)];
    RunStaysRegular(moves);
    assert w0.flows[i] in w0.flows;
    PlayOneMore(moves, ClearLocks);
    PlayOneMore(cleared, Launch(c));
    PlayOneMore(launched, Act(i, Abort));
    assert PlayAll(launched) == World(map[c.key := Owner(c.key)], w0.flows + [Flow(c, Start(false))]);
    assert PlayAll(launched).flows[i] == w0.flows[i];
  }

  /** The workflow object; `locks` is the lock manager of its connection. */
  class CommandSend {
    const config: Config
    const locks: LockManager<Key>
    var phase: Phase
    var confirmation: nat
    var retries: nat
    var inProgress: bool
    var waits: nat
    var settled: Option<Outcome>
    var subscribed: bool
    var locked: bool
    var timer: bool
    var outstanding: nat
    var frames: seq<nat>
    var releases: nat

    ghost function Abs(): State
      reads this
    {
      State(phase, confirmation, retries, inProgress, waits, settled, subscribed, locked, timer, outstanding,
        frames, releases)
    }

    constructor (config: Config, locks: LockManager<Key>)
      ensures this.config == config && this.locks == locks && Abs() == Initial
    {
      this.config, this.locks := config, locks;
      phase, confirmation, retries, inProgress, waits := Idle, 0, 0, false, 0;
      settled, subscribed, locked, timer, outstanding := None, false, false, false, 0;
      frames, releases := [], 0;
    }

    /** What `Apply` does to the locks. */
    ghost function LocksAfter(before: State, held: map<Key, string>): map<Key, string>
      reads this
    {
      if before.locked && !locked then AfterRelease(held, config.key, Named(Owner(config.key))) else held
    }

    method Begin()
      requires Abs() == Initial
      modifies this, locks
      ensures Abs() == Start(config.key in old(locks.locks))
      ensures locks.locks == LaunchStep(World(old(locks.locks), []), config).locks
    {
      var heldBy := locks.Acquire(config.key, Named(Owner(config.key)));
      if heldBy.Some? {
        SettleWith(Failure(Busy));
        return;
      }
      locked, subscribed := true, true;
      Transmit();
    }

    method Transmit()
      modifies this
      ensures Abs() == SendCommand(old(Abs()))
    {
      phase := WaitingAck;
      frames, outstanding := frames + [confirmation], outstanding + 1;
    }

    method SettleWith(outcome: Outcome)
      modifies this, locks
      ensures Abs() == Settle(old(Abs()), outcome)
      ensures locks.locks == LocksAfter(old(Abs()), old(locks.locks))
    {
      if settled.Some? {
        return;
      }
      settled, phase := Some(outcome), if outcome.Acknowledged? then Complete else Failed;
      timer, subscribed := false, false;
      if locked {
        locked, releases := false, releases + 1;
        var _ := locks.Release(config.key, Named(Owner(config.key)));
      }
    }

    method Receive(ack: CommandAck)
      modifies this, locks
      ensures Abs() == Step(config, old(Abs()), AckArrives(ack))
      ensures locks.locks == LocksAfter(old(Abs()), old(locks.locks))
    {
      if !subscribed || !Matches(config, ack) {
        return;
      }
      if ack.result == IN_PROGRESS {
        phase, inProgress, waits := InProgress, true, 0;
        timer := settled.None?;
        return;
      }
      timer := false;
      SettleWith(if ack.result == ACCEPTED then Acknowledged else Failure(Rejected(ack.result)));
    }

    method SendCompleted(ok: bool)
      requires outstanding > 0
      modifies this, locks
      ensures Abs() == Step(config, old(Abs()), if ok then SendDone else SendFails)
      ensures locks.locks == LocksAfter(old(Abs()), old(locks.locks))
    {
      outstanding := outstanding - 1;
      if ok {
        timer := settled.None?;
      } else {
        SettleWith(Failure(SendFailed));
      }
    }

    method TimerExpired()
      modifies this, locks
      ensures Abs() == Step(config, old(Abs()), TimerFires)
      ensures locks.locks == LocksAfter(old(Abs()), old(locks.locks))
    {
      if !timer {
        return;
      }
      timer := false;
      if settled.Some? {
        return;
      }
      if inProgress {
        if waits >= config.maxRetries {
          SettleWith(Failure(CommandTimeout));
          return;
        }
        waits, timer := waits + 1, true;
        return;
      }
      if retries >= config.maxRetries {
        SettleWith(Failure(CommandTimeout));
        return;
      }
      retries, confirmation := retries + 1, (confirmation + 1) % 256;
      Transmit();
    }

    method AbortNow()
      modifies this, locks
      ensures Abs() == Step(config, old(Abs()), Abort)
      ensures locks.locks == LocksAfter(old(Abs()), old(locks.locks))
    {
      SettleWith(Failure(Aborted));
    }
  }
}
