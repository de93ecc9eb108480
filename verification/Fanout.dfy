/** The fan-out dispatcher: a bounded number of targets in flight, each accounted for once.

    Await and send delivery run the same loop; send delivery never reports a timeout.  A target's promise first
    settles (its outcome is recorded) and only then leaves the in-flight set, so the two are separate events. */
module Fanouts {

  /** `broken` are the targets whose workflow cannot even be built or started: they fail while launched. */
  datatype Plan = Plan(count: nat, concurrency: nat, spacing: bool, stopOnError: bool, broken: set<nat>)

  type Config = p: Plan | p.concurrency >= 1 witness Plan(0, 1, false, false, {})

  /** Where the dispatcher is suspended. */
  datatype Point = Start | Racing(raced: set<nat>) | Spacing | Draining | Done

  datatype Outcome = Accepted | Failed | TimedOut

  datatype State = State(
    point: Point, nextIndex: nat, running: set<nat>, inFlight: set<nat>, aborted: bool, closed: bool,
    accepted: seq<nat>, failed: seq<nat>, timedOut: seq<nat>, skipped: seq<nat>, published: bool)

  datatype Event = Begin | Settle(i: nat, outcome: Outcome) | Leave(i: nat) | RaceWakes | DelayEnds | DrainEnds | Close

  const Initial := State(Start, 0, {}, {}, false, false, [], [], [], [], false)

  function Range(low: nat, high: nat): seq<nat>
    decreases high
  {
    if low >= high then [] else Range(low, high - 1) + [high - 1]
  }

  // One step

  function Record(c: Config, s: State, i: nat, outcome: Outcome): State {
    var settled := s.(running := s.running - {i}, aborted := s.aborted || (c.stopOnError && !outcome.Accepted?));
    match outcome
    case Accepted => settled.(accepted := s.accepted + [i])
    case Failed => settled.(failed := s.failed + [i])
    case TimedOut => settled.(timedOut := s.timedOut + [i])
  }

  function Launched(s: State): State {
    s.(nextIndex := s.nextIndex + 1, running := s.running + {s.nextIndex}, inFlight := s.inFlight + {s.nextIndex})
  }

  function Launch(c: Config, s: State): State {
    if s.nextIndex in c.broken then Record(c, Launched(s), s.nextIndex, Failed) else Launched(s)
  }

  /** Runs from the head of the loop to the next suspension. */
  function Dispatch(c: Config, s: State): State
    decreases c.count - s.nextIndex
  {
    if s.nextIndex >= c.count || s.closed || s.aborted then s.(point := Draining)
    else if |s.inFlight| >= c.concurrency then s.(point := Racing(s.inFlight))
    else if c.spacing && s.nextIndex > 0 then s.(point := Spacing)
    else Dispatch(c, Launch(c, s))
  }

  predicate Stopped(s: State) {
    s.closed || s.aborted
  }

  predicate Enabled(s: State, e: Event) {
    match e
    case Begin => s.point.Start?
    case Settle(i, _) => i in s.running
    case Leave(i) => i in s.inFlight && i !in s.running
    case RaceWakes => s.point.Racing? && !(s.point.raced <= s.inFlight)
    case DelayEnds => s.point.Spacing?
    case DrainEnds => s.point.Draining? && s.inFlight == {}
    case Close => !s.closed
  }

  function Finish(c: Config, s: State): State {
    if s.closed then s.(point := Done)
    else s.(point := Done, published := true,
            skipped := if s.aborted then Range(s.nextIndex, c.count) else [])
  }

  function Step(c: Config, s: State, e: Event): State
    requires Enabled(s, e)
  {
    match e
    case Begin => Dispatch(c, s)
    case Settle(i, outcome) => Record(c, s, i, outcome)
    case Leave(i) => s.(inFlight := s.inFlight - {i})
    case RaceWakes => if Stopped(s) then s.(point := Draining) else Dispatch(c, s)
    case DelayEnds => if Stopped(s) then s.(point := Draining) else Dispatch(c, Launch(c, s))
    case DrainEnds => Finish(c, s)
    case Close => s.(closed := true)
  }

  /** `states` is a run of the dispatcher under `events`. */
  predicate IsRun(c: Config, states: seq<State>, events: seq<Event>) {
    && |states| == |events| + 1 && states[0] == Initial
    && forall k :: 0 <= k < |events| ==> Enabled(states[k], events[k]) && states[k + 1] == Step(c, states[k], events[k])
  }

  // Invariant

  function Failures(s: State): nat {
    |s.failed| + |s.timedOut|
  }

  /** In how many ways the target was reported, counting repetitions. */
  function Reports(s: State, i: nat): nat {
    multiset(s.accepted)[i] + multiset(s.failed)[i] + multiset(s.timedOut)[i]
  }

  /** Every launched target is either running or reported, once; the others are neither. */
  ghost predicate Accounted(s: State) {
    forall i: nat :: Reports(s, i) + (if i in s.running then 1 else 0) == if i < s.nextIndex then 1 else 0
  }

  ghost predicate InvFlight(c: Config, s: State) {
    && s.nextIndex <= c.count && s.running <= s.inFlight && |s.inFlight| <= c.concurrency
    && (forall i :: i in s.inFlight ==> i < s.nextIndex)
    && Accounted(s)
    && (s.aborted <==> c.stopOnError && Failures(s) > 0)
    && (s.aborted ==> Failures(s) + |s.running| <= c.concurrency)
  }

  ghost predicate InvPoint(c: Config, s: State) {
    && (s.point.Start? ==> s.nextIndex == 0 && s.inFlight == {})
    && (s.point.Racing? ==> s.nextIndex < c.count && s.inFlight <= s.point.raced && |s.point.raced| == c.concurrency)
    && (s.point.Spacing? ==> s.nextIndex < c.count && |s.inFlight| < c.concurrency)
    && (s.point.Draining? || s.point.Done? ==> s.nextIndex == c.count || Stopped(s))
    && (s.point.Done? ==> s.inFlight == {})
    && (s.published ==>
          && s.point.Done? && (s.nextIndex == c.count || s.aborted)
          && s.skipped == (if s.aborted then Range(s.nextIndex, c.count) else []))
    && (s.point.Done? ==> s.published || s.closed)
  }

  ghost predicate Inv(c: Config, s: State) {
    InvFlight(c, s) && InvPoint(c, s)
  }

  lemma RecordAccounts(c: Config, s: State, i: nat, outcome: Outcome)
    requires Accounted(s) && i in s.running
    ensures Accounted(Record(c, s, i, outcome))
  {
    var t := Record(c, s, i, outcome);
    forall k: nat ensures Reports(t, k) == Reports(s, k) + if k == i then 1 else 0 {
    }
  }

  lemma RecordKeepsInv(c: Config, s: State, i: nat, outcome: Outcome)
    requires InvFlight(c, s) && i in s.running
    ensures InvFlight(c, Record(c, s, i, outcome))
  {
    RecordAccounts(c, s, i, outcome);
    SubsetSize(s.running, s.inFlight);
    assert |s.running - {i}| == |s.running| - 1;
  }

  lemma {:induction false} SubsetSize(a: set<nat>, b: set<nat>)
    requires a <= b
    ensures |a| <= |b|
  {
    if a != {} {
      var x :| x in a;
      SubsetSize(a - {x}, b - {x});
    }
  }

  lemma LaunchAccounts(s: State)
    requires Accounted(s) && s.nextIndex !in s.running
    ensures Accounted(Launched(s))
  {
    assert forall k: nat :: Reports(Launched(s), k) == Reports(s, k);
  }

  lemma LaunchKeepsInv(c: Config, s: State)
    requires InvFlight(c, s) && s.nextIndex < c.count && |s.inFlight| < c.concurrency && !s.aborted
    ensures InvFlight(c, Launch(c, s))
  {
    assert s.nextIndex !in s.inFlight;
    LaunchAccounts(s);
    assert InvFlight(c, Launched(s));
    if s.nextIndex in c.broken {
      RecordKeepsInv(c, Launched(s), s.nextIndex, Failed);
    }
  }

  lemma {:induction false} DispatchKeepsInv(c: Config, s: State)
    requires InvFlight(c, s) && !s.published
    ensures Inv(c, Dispatch(c, s))
    decreases c.count - s.nextIndex
  {
    if s.nextIndex < c.count && !Stopped(s) && |s.inFlight| < c.concurrency && !(c.spacing && s.nextIndex > 0) {
      LaunchKeepsInv(c, s);
      DispatchKeepsInv(c, Launch(c, s));
    }
  }

  lemma DispatcherStepKeepsInv(c: Config, s: State, e: Event)
    requires Inv(c, s) && Enabled(s, e) && (e.Begin? || e.RaceWakes? || e.DelayEnds?)
    ensures Inv(c, Step(c, s, e))
  {
    if !e.Begin? && Stopped(s) {
      assert InvFlight(c, Step(c, s, e));
    } else if e.DelayEnds? {
      LaunchKeepsInv(c, s);
      DispatchKeepsInv(c, Launch(c, s));
    } else {
      DispatchKeepsInv(c, s);
    }
  }

  lemma SettleKeepsInv(c: Config, s: State, i: nat, outcome: Outcome)
    requires Inv(c, s) && i in s.running
    ensures Inv(c, Record(c, s, i, outcome))
  {
    RecordKeepsInv(c, s, i, outcome);
  }

  lemma LeaveKeepsInv(c: Config, s: State, i: nat)
    requires Inv(c, s) && Enabled(s, Leave(i))
    ensures Inv(c, Step(c, s, Leave(i)))
  {
    SubsetSize(s.inFlight - {i}, s.inFlight);
  }

  lemma StepKeepsInv(c: Config, s: State, e: Event)
    requires Inv(c, s) && Enabled(s, e)
    ensures Inv(c, Step(c, s, e))
  {
    match e
    case Settle(i, outcome) => SettleKeepsInv(c, s, i, outcome);
    case Leave(i) => LeaveKeepsInv(c, s, i);
    case DrainEnds =>
    case Close =>
    case _ => DispatcherStepKeepsInv(c, s, e);
  }

  // Whole runs

  lemma {:induction false} RunKeepsInv(c: Config, states: seq<State>, events: seq<Event>, k: nat)
    requires IsRun(c, states, events) && k < |states|
    ensures Inv(c, states[k])
  {
    if k > 0 {
      RunKeepsInv(c, states, events, k - 1);
      StepKeepsInv(c, states[k - 1], events[k - 1]);
    }
  }

  lemma {:induction false} RangeCounts(low: nat, high: nat, i: nat)
    ensures multiset(Range(low, high))[i] == if low <= i < high then 1 else 0
    ensures |Range(low, high)| == if low < high then high - low else 0
  {
    if low < high {
      RangeCounts(low, high - 1, i);
    }
  }

  ghost predicate ReportedOnce(c: Config, s: State) {
    forall i: nat :: Reports(s, i) + multiset(s.skipped)[i] == if i < c.count then 1 else 0
  }

  lemma PublishedReportsOnce(c: Config, s: State)
    requires Inv(c, s) && s.published
    ensures s.running == {} && ReportedOnce(c, s)
    ensures |s.skipped| <= c.count && s.skipped == Range(c.count - |s.skipped|, c.count)
  {
    forall i: nat ensures Reports(s, i) + multiset(s.skipped)[i] == if i < c.count then 1 else 0 {
      assert Reports(s, i) == if i < s.nextIndex then 1 else 0;
      RangeCounts(s.nextIndex, c.count, i);
    }
    RangeCounts(s.nextIndex, c.count, 0);
  }

  /** In every interleaving at most `concurrency` targets are in flight; a published result reports each target
      in exactly one list, and skips only an in-order suffix, and only after a failure under stop-on-error, of
      which there are then at most `concurrency`. */
  lemma EveryTargetIsReportedOnce(c: Config, states: seq<State>, events: seq<Event>, k: nat)
    requires IsRun(c, states, events) && k < |states|
    ensures |states[k].inFlight| <= c.concurrency && states[k].running <= states[k].inFlight
    ensures c.stopOnError ==> Failures(states[k]) <= c.concurrency
    ensures states[k].published ==>
      && states[k].running == {} && ReportedOnce(c, states[k])
      && |states[k].skipped| <= c.count && states[k].skipped == Range(c.count - |states[k].skipped|, c.count)
      && (states[k].skipped != [] ==> c.stopOnError && Failures(states[k]) > 0)
  {
    RunKeepsInv(c, states, events, k);
    if states[k].published {
      PublishedReportsOnce(c, states[k]);
    }
  }

  lemma SuspendsAtSpacing(c: Config, s: State)
    requires c.spacing && s.nextIndex > 0
    ensures Dispatch(c, s).nextIndex == s.nextIndex
  {
  }

  lemma LaunchesOne(c: Config, s: State)
    ensures Launch(c, s).nextIndex == s.nextIndex + 1
  {
  }

  lemma DispatchWithSpacing(c: Config, s: State)
    requires c.spacing
    ensures Dispatch(c, s).nextIndex == s.nextIndex || (s.nextIndex == 0 && Dispatch(c, s).nextIndex == 1)
  {
    LaunchesOne(c, s);
    if s.nextIndex > 0 {
      SuspendsAtSpacing(c, s);
    } else {
      SuspendsAtSpacing(c, Launch(c, s));
    }
  }

  lemma {:induction false} DispatchWithoutSpacing(c: Config, s: State)
    requires !c.spacing
    ensures !Dispatch(c, s).point.Spacing?
    decreases c.count - s.nextIndex
  {
    if s.nextIndex < c.count && !Stopped(s) && |s.inFlight| < c.concurrency {
      DispatchWithoutSpacing(c, Launch(c, s));
    }
  }

  lemma StepWithoutSpacing(c: Config, s: State, e: Event)
    requires Enabled(s, e) && !c.spacing && !s.point.Spacing?
    ensures !Step(c, s, e).point.Spacing?
  {
    DispatchWithoutSpacing(c, s);
  }

  lemma {:induction false} NoDelayWithoutSpacing(c: Config, states: seq<State>, events: seq<Event>, k: nat)
    requires IsRun(c, states, events) && k < |states| && !c.spacing
    ensures !states[k].point.Spacing?
  {
    if k > 0 {
      NoDelayWithoutSpacing(c, states, events, k - 1);
      StepWithoutSpacing(c, states[k - 1], events[k - 1]);
    }
  }

  lemma StepWithSpacing(c: Config, s: State, e: Event)
    requires Enabled(s, e) && c.spacing
    ensures var t := Step(c, s, e);
      t.nextIndex == s.nextIndex || (t.nextIndex == s.nextIndex + 1 && (e.DelayEnds? || s.nextIndex == 0))
  {
    match e
    case Begin => DispatchWithSpacing(c, s);
    case RaceWakes => DispatchWithSpacing(c, s);
    case DelayEnds =>
      LaunchesOne(c, s);
      SuspendsAtSpacing(c, Launch(c, s));
    case Settle(_, _) =>
    case _ =>
  }

  /** With a spacing set, targets are launched one at a time, and each but the first only when a delay has ended;
      without one there is no delay. */
  lemma SpacingSeparatesLaunches(c: Config, states: seq<State>, events: seq<Event>, k: nat)
    requires IsRun(c, states, events) && k < |events|
    ensures var s, t := states[k], states[k + 1];
      && (c.spacing && t.nextIndex != s.nextIndex ==>
            t.nextIndex == s.nextIndex + 1 && (events[k].DelayEnds? || s.nextIndex == 0))
      && (!c.spacing ==> !events[k].DelayEnds?)
  {
    if c.spacing {
      StepWithSpacing(c, states[k], events[k]);
    } else {
      NoDelayWithoutSpacing(c, states, events, k);
    }
  }

  // Which list a target is in

  /** The run contains an event that settles the target so, up to state `k`. */
  ghost predicate Settled(events: seq<Event>, k: nat, i: nat, outcome: Outcome) {
    exists j :: 0 <= j < k && j < |events| && events[j] == Settle(i, outcome)
  }

  /** The target failed while it was launched. */
  predicate FailedAtLaunch(c: Config, s: State, i: nat) {
    i in c.broken && i < s.nextIndex
  }

  /** Each list holds exactly the targets with that outcome. */
  ghost predicate ListsTell(c: Config, s: State, events: seq<Event>, k: nat) {
    && (forall i :: i in s.accepted <==> Settled(events, k, i, Accepted))
    && (forall i :: i in s.timedOut <==> Settled(events, k, i, TimedOut))
    && (forall i :: i in s.failed <==> Settled(events, k, i, Failed) || FailedAtLaunch(c, s, i))
  }

  /** What launching and dispatching do to the lists: only broken targets are added, and those to `failed`. */
  ghost predicate Adds(c: Config, s: State, t: State) {
    && t.accepted == s.accepted && t.timedOut == s.timedOut && s.nextIndex <= t.nextIndex
    && (forall i :: i in t.failed <==> i in s.failed || (i in c.broken && s.nextIndex <= i < t.nextIndex))
  }

  lemma LaunchAdds(c: Config, s: State)
    ensures Adds(c, s, Launch(c, s)) && Launch(c, s).nextIndex == s.nextIndex + 1
  {
  }

  lemma AddsTransitively(c: Config, r: State, s: State, t: State)
    requires Adds(c, r, s) && Adds(c, s, t)
    ensures Adds(c, r, t)
  {
  }

  lemma {:induction false} DispatchAdds(c: Config, s: State)
    ensures Adds(c, s, Dispatch(c, s))
    decreases c.count - s.nextIndex
  {
    if s.nextIndex < c.count && !Stopped(s) && |s.inFlight| < c.concurrency && !(c.spacing && s.nextIndex > 0) {
      LaunchAdds(c, s);
      DispatchAdds(c, Launch(c, s));
      AddsTransitively(c, s, Launch(c, s), Dispatch(c, Launch(c, s)));
    }
  }

  lemma StepAdds(c: Config, s: State, e: Event)
    requires Enabled(s, e) && !e.Settle?
    ensures Adds(c, s, Step(c, s, e))
  {
    match e
    case Begin => DispatchAdds(c, s);
    case RaceWakes => DispatchAdds(c, s);
    case DelayEnds =>
      LaunchAdds(c, s);
      DispatchAdds(c, Launch(c, s));
      AddsTransitively(c, s, Launch(c, s), Dispatch(c, Launch(c, s)));
    case _ =>
  }

  lemma SettledNext(events: seq<Event>, k: nat, i: nat, outcome: Outcome)
    requires k < |events|
    ensures Settled(events, k + 1, i, outcome) <==> Settled(events, k, i, outcome) || events[k] == Settle(i, outcome)
  {
    if Settled(events, k + 1, i, outcome) {
      var j :| 0 <= j < k + 1 && j < |events| && events[j] == Settle(i, outcome);
      assert j < k || events[k] == Settle(i, outcome);
    }
  }

  lemma SettleTells(c: Config, s: State, events: seq<Event>, k: nat)
    requires k < |events| && ListsTell(c, s, events, k) && events[k].Settle? && Enabled(s, events[k])
    ensures ListsTell(c, Step(c, s, events[k]), events, k + 1)
  {
    forall i: nat, outcome
      ensures Settled(events, k + 1, i, outcome) <==> Settled(events, k, i, outcome) || events[k] == Settle(i, outcome)
    {
      SettledNext(events, k, i, outcome);
    }
    assert Settled(events, k + 1, events[k].i, events[k].outcome);
  }

  lemma OtherTells(c: Config, s: State, events: seq<Event>, k: nat)
    requires k < |events| && ListsTell(c, s, events, k) && !events[k].Settle? && Enabled(s, events[k])
    ensures ListsTell(c, Step(c, s, events[k]), events, k + 1)
  {
    forall i: nat, outcome ensures Settled(events, k + 1, i, outcome) <==> Settled(events, k, i, outcome) {
      SettledNext(events, k, i, outcome);
    }
    StepAdds(c, s, events[k]);
  }

  lemma {:induction false} RunTells(c: Config, states: seq<State>, events: seq<Event>, k: nat)
    requires IsRun(c, states, events) && k < |states|
    ensures ListsTell(c, states[k], events, k)
  {
    if k > 0 {
      RunTells(c, states, events, k - 1);
      if events[k - 1].Settle? {
        SettleTells(c, states[k - 1], events, k - 1);
      } else {
        OtherTells(c, states[k - 1], events, k - 1);
      }
    }
  }

  ghost predicate WentWrong(c: Config, s: State, events: seq<Event>, k: nat, i: nat) {
    Settled(events, k, i, Failed) || Settled(events, k, i, TimedOut) || FailedAtLaunch(c, s, i)
  }

  /** In every run each list holds exactly the targets with that outcome: accepted and timed out are those whose
      workflow ended so, failed are those whose workflow ended so or could not be started.  Dispatching is aborted
      exactly if something went wrong under stop-on-error. */
  lemma ListsTellOutcomes(c: Config, states: seq<State>, events: seq<Event>, k: nat)
    requires IsRun(c, states, events) && k < |states|
    ensures ListsTell(c, states[k], events, k)
    ensures states[k].aborted <==> c.stopOnError && exists i :: WentWrong(c, states[k], events, k, i)
  {
    var s := states[k];
    RunTells(c, states, events, k);
    RunKeepsInv(c, states, events, k);
    if s.failed != [] {
      assert s.failed[0] in s.failed && WentWrong(c, s, events, k, s.failed[0]);
    } else if s.timedOut != [] {
      assert s.timedOut[0] in s.timedOut && WentWrong(c, s, events, k, s.timedOut[0]);
    }
  }

  lemma StoppedStaysStopped(c: Config, s: State, e: Event)
    requires Stopped(s) && Enabled(s, e)
    ensures var t := Step(c, s, e);
      Stopped(t) && t.nextIndex == s.nextIndex && t.running <= s.running
  {
  }

  /** Once closed or aborted the dispatcher launches nothing more: what runs from then on was running. */
  lemma {:induction false} NothingLaunchedAfterStop(c: Config, states: seq<State>, events: seq<Event>, k: nat, m: nat)
    requires IsRun(c, states, events) && k <= m < |states| && Stopped(states[k])
    ensures Stopped(states[m]) && states[m].nextIndex == states[k].nextIndex && states[m].running <= states[k].running
  {
    if k < m {
      NothingLaunchedAfterStop(c, states, events, k, m - 1);
      StoppedStaysStopped(c, states[m - 1], events[m - 1]);
    }
  }

  /** Whatever state is reached, something can still happen until the dispatcher is done, and without a close
      being asked for. */
  lemma NeverStuck(c: Config, s: State) returns (e: Event)
    requires Inv(c, s) && !s.point.Done?
    ensures Enabled(s, e) && !e.Close?
  {
    if s.running != {} {
      var i :| i in s.running;
      return Settle(i, Accepted);
    }
    if s.inFlight != {} {
      var i :| i in s.inFlight;
      return Leave(i);
    }
    match s.point
    case Start => return Begin;
    case Racing(raced) =>
      assert raced != {};
      return RaceWakes;
    case Spacing => return DelayEnds;
    case Draining => return DrainEnds;
  }

  function Rank(p: Point): nat {
    match p
    case Start => 4
    case Racing(_) => 3
    case Spacing => 2
    case Draining => 1
    case Done => 0
  }

  function Remaining(c: Config, s: State): int {
    5 * (c.count - s.nextIndex) + |s.running| + |s.inFlight| + Rank(s.point) + if s.closed then 0 else 1
  }

  lemma LaunchRemaining(c: Config, s: State)
    requires InvFlight(c, s) && s.nextIndex < c.count
    ensures Remaining(c, Launch(c, s)) <= Remaining(c, s) - 3
  {
    assert s.nextIndex !in s.running && s.nextIndex !in s.inFlight;
    assert |s.running + {s.nextIndex}| == |s.running| + 1;
    assert |s.inFlight + {s.nextIndex}| == |s.inFlight| + 1;
    assert (s.running + {s.nextIndex}) - {s.nextIndex} == s.running;
  }

  /** Dispatching makes progress unless it suspends at once. */
  lemma {:induction false} DispatchRemaining(c: Config, s: State)
    requires InvFlight(c, s)
    ensures Remaining(c, Dispatch(c, s)) <= Remaining(c, s) - Rank(s.point) + 3
    ensures |s.inFlight| < c.concurrency && !(c.spacing && s.nextIndex > 0) ==>
      Remaining(c, Dispatch(c, s)) <= Remaining(c, s) - Rank(s.point) + 1
    ensures |s.inFlight| < c.concurrency ==> Remaining(c, Dispatch(c, s)) <= Remaining(c, s) - Rank(s.point) + 2
    decreases c.count - s.nextIndex
  {
    if s.nextIndex < c.count && !Stopped(s) && |s.inFlight| < c.concurrency && !(c.spacing && s.nextIndex > 0) {
      LaunchKeepsInv(c, s);
      LaunchRemaining(c, s);
      DispatchRemaining(c, Launch(c, s));
    }
  }

  lemma RaceUsesUp(c: Config, s: State)
    requires Inv(c, s) && Enabled(s, RaceWakes)
    ensures Remaining(c, Step(c, s, RaceWakes)) < Remaining(c, s)
  {
    if !Stopped(s) {
      ProperSubset(s.inFlight, s.point.raced);
      DispatchRemaining(c, s);
    }
  }

  lemma DelayUsesUp(c: Config, s: State)
    requires Inv(c, s) && Enabled(s, DelayEnds)
    ensures Remaining(c, Step(c, s, DelayEnds)) < Remaining(c, s)
  {
    if !Stopped(s) {
      LaunchKeepsInv(c, s);
      LaunchRemaining(c, s);
      DispatchRemaining(c, Launch(c, s));
    }
  }

  lemma SettleUsesUp(c: Config, s: State, i: nat, outcome: Outcome)
    requires i in s.running
    ensures Remaining(c, Record(c, s, i, outcome)) < Remaining(c, s)
  {
    assert |s.running - {i}| == |s.running| - 1;
  }

  lemma LeaveUsesUp(c: Config, s: State, i: nat)
    requires Enabled(s, Leave(i))
    ensures Remaining(c, Step(c, s, Leave(i))) < Remaining(c, s)
  {
    assert |s.inFlight - {i}| == |s.inFlight| - 1;
  }

  lemma StepUsesUp(c: Config, s: State, e: Event)
    requires Inv(c, s) && Enabled(s, e)
    ensures Remaining(c, Step(c, s, e)) < Remaining(c, s)
  {
    match e
    case Begin => DispatchRemaining(c, s);
    case Settle(i, outcome) => SettleUsesUp(c, s, i, outcome);
    case Leave(i) => LeaveUsesUp(c, s, i);
    case RaceWakes => RaceUsesUp(c, s);
    case DelayEnds => DelayUsesUp(c, s);
    case DrainEnds =>
    case Close =>
  }

  lemma ProperSubset(a: set<nat>, b: set<nat>)
    requires a < b
    ensures |a| < |b|
  {
    var x :| x in b && x !in a;
    SubsetSize(a, b - {x});
  }

  lemma {:induction false} RunUsesUp(c: Config, states: seq<State>, events: seq<Event>, k: nat)
    requires IsRun(c, states, events) && k < |states|
    ensures Remaining(c, states[k]) <= 5 * c.count + 5 - k
  {
    if k > 0 {
      RunUsesUp(c, states, events, k - 1);
      RunKeepsInv(c, states, events, k - 1);
      StepUsesUp(c, states[k - 1], events[k - 1]);
    }
  }

  /** Every interleaving ends: a run has at most 5 * count + 5 events, and one that cannot go on without a close
      is done, and has published unless it was closed. */
  lemma EveryRunEnds(c: Config, states: seq<State>, events: seq<Event>)
    requires IsRun(c, states, events)
    ensures |events| <= 5 * c.count + 5
    ensures (forall e :: Enabled(states[|events|], e) ==> e.Close?) ==>
      states[|events|].point.Done? && (states[|events|].published || states[|events|].closed)
  {
    RunUsesUp(c, states, events, |events|);
    RunKeepsInv(c, states, events, |events|);
    if !states[|events|].point.Done? {
      var e := NeverStuck(c, states[|events|]);
    }
  }

  // The dispatcher

  class FanoutDispatcher {
    const config: Config
    var point: Point
    var nextIndex: nat
    var running: set<nat>
    var inFlight: set<nat>
    var aborted: bool
    var closed: bool
    var accepted: seq<nat>
    var failed: seq<nat>
    var timedOut: seq<nat>
    var skipped: seq<nat>
    var published: bool

    ghost function Abs(): State
      reads this
    {
      State(point, nextIndex, running, inFlight, aborted, closed, accepted, failed, timedOut, skipped, published)
    }

    constructor (config: Config)
      ensures this.config == config && Abs() == Initial
    {
      this.config := config;
      point, nextIndex, running, inFlight := Start, 0, {}, {};
      aborted, closed, published := false, false, false;
      accepted, failed, timedOut, skipped := [], [], [], [];
    }

    method OnSettled(i: nat, outcome: Outcome)
      modifies this
      ensures Abs() == Record(config, old(Abs()), i, outcome)
    {
      running := running - {i};
      match outcome {
        case Accepted => accepted := accepted + [i];
        case Failed => failed := failed + [i];
        case TimedOut => timedOut := timedOut + [i];
      }
      if outcome != Accepted && config.stopOnError {
        aborted := true;
      }
    }

    method RunTarget(i: nat)
      requires i == nextIndex
      modifies this
      ensures Abs() == Launch(config, old(Abs()))
    {
      nextIndex := i + 1;
      running := running + {i};
      inFlight := inFlight + {i};
      if i in config.broken {
        OnSettled(i, Failed);
      }
    }

    method Loop()
      modifies this
      ensures Abs() == Dispatch(config, old(Abs()))
    {
      while nextIndex < config.count && !closed && !aborted
        invariant Dispatch(config, Abs()) == Dispatch(config, old(Abs()))
        decreases config.count - nextIndex
      {
        if |inFlight| >= config.concurrency {
          point := Racing(inFlight);
          return;
        }
        if config.spacing && nextIndex > 0 {
          point := Spacing;
          return;
        }
        RunTarget(nextIndex);
      }
      point := Draining;
    }

    method OnRaceSettled()
      requires Enabled(Abs(), RaceWakes)
      modifies this
      ensures Abs() == Step(config, old(Abs()), RaceWakes)
    {
      if closed || aborted {
        point := Draining;
        return;
      }
      Loop();
    }

    method OnDelayEnded()
      requires Enabled(Abs(), DelayEnds)
      modifies this
      ensures Abs() == Step(config, old(Abs()), DelayEnds)
    {
      if closed || aborted {
        point := Draining;
        return;
      }
      RunTarget(nextIndex);
      Loop();
    }

    method OnDrained()
      requires Enabled(Abs(), DrainEnds)
      modifies this
      ensures Abs() == Step(config, old(Abs()), DrainEnds)
    {
      point := Done;
      if closed {
        return;
      }
      skipped := [];
      var i := nextIndex;
      while aborted && i < config.count
        invariant aborted == old(aborted) && nextIndex == old(nextIndex) && i >= nextIndex
        invariant i <= config.count || i == nextIndex
        invariant Abs() == old(Abs()).(point := Done, skipped := if aborted then Range(nextIndex, i) else [])
      {
        skipped := skipped + [i];
        i := i + 1;
      }
      published := true;
    }
  }
}
