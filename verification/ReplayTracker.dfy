/** MAVLink 2 signing: replay protection at the receiver, timestamps and sequence numbers at the sender. */
module ReplayTrackers {
  import opened Wrappers
  import opened StableSorting

  /** One minute in units of 10 microseconds. */
  const FRESHNESS_WINDOW := 6_000_000
  const MAX_SIGNING_STREAMS := 256

  datatype Stream = Stream(sysid: int, compid: int, linkId: int)

  /** A verified signed frame and the receiver's clock when it arrives; absent means not a finite number. */
  datatype Frame = Frame(stream: Stream, timestamp: Option<int>, now: Option<int>)

  datatype Tracker = Tracker(max: map<Stream, int>, maxAccepted: int)

  const Fresh := Tracker(map[], 0)

  function Max(a: int, b: int): int {
    if a < b then b else a
  }

  function Reference(t: Tracker, now: Option<int>): int {
    Max(if now.Some? then now.value else 0, t.maxAccepted)
  }

  predicate Accepts(t: Tracker, f: Frame) {
    f.timestamp.Some? &&
    if f.stream in t.max then f.timestamp.value > t.max[f.stream]
    else f.timestamp.value >= Reference(t, f.now) - FRESHNESS_WINDOW && |t.max| < MAX_SIGNING_STREAMS
  }

  function Check(t: Tracker, f: Frame): Tracker {
    if Accepts(t, f) then Tracker(t.max[f.stream := f.timestamp.value], Max(t.maxAccepted, f.timestamp.value)) else t
  }

  function Run(frames: seq<Frame>): Tracker {
    if frames == [] then Fresh else Check(Run(frames[..|frames| - 1]), frames[|frames| - 1])
  }

  /** The frames that were accepted, in order. */
  function Accepted(frames: seq<Frame>): seq<Frame> {
    if frames == [] then []
    else
      var before, f := frames[..|frames| - 1], frames[|frames| - 1];
      Accepted(before) + if Accepts(Run(before), f) then [f] else []
  }

  // The rules, stated on the history of accepted frames

  function OnStream(stream: Stream): Frame -> bool {
    (f: Frame) => f.stream == stream
  }

  ghost predicate Known(history: seq<Frame>, stream: Stream) {
    exists f :: f in history && f.stream == stream
  }

  function StreamsOf(history: seq<Frame>): set<Stream> {
    set f | f in history :: f.stream
  }

  /** What the signing rules ask of a frame, given everything accepted before it: on a known stream it must
      be newer than all of that stream; a new stream needs room in the table and a timestamp within the
      window of the clock and of everything accepted. */
  ghost predicate RuleAccepts(history: seq<Frame>, f: Frame) {
    && f.timestamp.Some?
    && (Known(history, f.stream) ==>
          forall g :: g in history && g.stream == f.stream ==>
            g.timestamp.Some? && g.timestamp.value < f.timestamp.value)
    && (!Known(history, f.stream) ==>
          && f.timestamp.value >= (if f.now.Some? then f.now.value else 0) - FRESHNESS_WINDOW
          && f.timestamp.value >= -FRESHNESS_WINDOW
          && (forall g :: g in history && g.timestamp.Some? ==>
              f.timestamp.value >= g.timestamp.value - FRESHNESS_WINDOW)
          && |StreamsOf(history)| < MAX_SIGNING_STREAMS)
  }

  ghost predicate Bounds(t: Tracker, history: seq<Frame>) {
    forall f :: f in history ==>
      && f.stream in t.max && f.timestamp.Some?
      && f.timestamp.value <= t.max[f.stream] && f.timestamp.value <= t.maxAccepted
  }

  ghost predicate Attained(t: Tracker, history: seq<Frame>) {
    && (forall s :: s in t.max ==> exists f :: f in history && f.stream == s && f.timestamp == Some(t.max[s]))
    && t.maxAccepted >= 0 && (t.maxAccepted == 0 || exists f :: f in history && f.timestamp == Some(t.maxAccepted))
  }

  /** The tracker is a summary of the history. */
  ghost predicate Summarizes(t: Tracker, history: seq<Frame>) {
    Bounds(t, history) && Attained(t, history) && |t.max| <= MAX_SIGNING_STREAMS
  }

  lemma SummaryStreams(t: Tracker, history: seq<Frame>)
    requires Summarizes(t, history)
    ensures StreamsOf(history) == t.max.Keys && |StreamsOf(history)| == |t.max|
    ensures forall s :: s in t.max <==> Known(history, s)
  {
    assert |t.max| == |t.max.Keys|;
  }

  lemma SummaryDecides(t: Tracker, history: seq<Frame>, f: Frame)
    requires Summarizes(t, history)
    ensures Accepts(t, f) <==> RuleAccepts(history, f)
  {
    SummaryStreams(t, history);
    if f.stream in t.max {
      var g :| g in history && g.stream == f.stream && g.timestamp == Some(t.max[f.stream]);
    }
  }

  lemma CheckAttains(t: Tracker, history: seq<Frame>, f: Frame)
    requires Attained(t, history) && Accepts(t, f)
    ensures Attained(Check(t, f), history + [f])
  {
    var u, longer := Check(t, f), history + [f];
    forall s | s in u.max ensures exists g :: g in longer && g.stream == s && g.timestamp == Some(u.max[s]) {
      if s == f.stream {
        assert f in longer;
      } else {
        var g :| g in history && g.stream == s && g.timestamp == Some(t.max[s]);
        assert g in longer;
      }
    }
    if u.maxAccepted == f.timestamp.value {
      assert f in longer;
    } else if u.maxAccepted != 0 {
      var g :| g in history && g.timestamp == Some(t.maxAccepted);
      assert g in longer;
    }
  }

  lemma CheckBounds(t: Tracker, history: seq<Frame>, f: Frame)
    requires Bounds(t, history) && Accepts(t, f)
    ensures Bounds(Check(t, f), history + [f])
  {
    var u := Check(t, f);
    forall g | g in history + [f]
      ensures g.stream in u.max && g.timestamp.Some?
      ensures g.timestamp.value <= u.max[g.stream] && g.timestamp.value <= u.maxAccepted
    {
      assert g in history || g == f;
    }
  }

  lemma CheckSummarizes(t: Tracker, history: seq<Frame>, f: Frame)
    requires Summarizes(t, history) && Accepts(t, f)
    ensures Summarizes(Check(t, f), history + [f])
  {
    CheckAttains(t, history, f);
    CheckBounds(t, history, f);
    TableStaysSmall(t, f);
  }

  lemma TableStaysSmall(t: Tracker, f: Frame)
    requires |t.max| <= MAX_SIGNING_STREAMS
    ensures |Check(t, f).max| <= MAX_SIGNING_STREAMS
  {
    var u := Check(t, f);
    assert |t.max| == |t.max.Keys| && |u.max| == |u.max.Keys|;
    if Accepts(t, f) {
      assert u.max.Keys == t.max.Keys + {f.stream};
    }
  }

  lemma {:induction false} RunSummarizes(frames: seq<Frame>)
    ensures Summarizes(Run(frames), Accepted(frames))
  {
    if frames != [] {
      var before, f := frames[..|frames| - 1], frames[|frames| - 1];
      RunSummarizes(before);
      if Accepts(Run(before), f) {
        CheckSummarizes(Run(before), Accepted(before), f);
      }
    }
  }

  /** The constant-size tracker takes the decision that the rules prescribe on the whole history. */
  lemma TrackerFollowsRules(frames: seq<Frame>, f: Frame)
    ensures Accepts(Run(frames), f) <==> RuleAccepts(Accepted(frames), f)
    ensures |StreamsOf(Accepted(frames))| <= MAX_SIGNING_STREAMS
  {
    RunSummarizes(frames);
    SummaryDecides(Run(frames), Accepted(frames), f);
    SummaryStreams(Run(frames), Accepted(frames));
  }

  function Earlier(): (Frame, Frame) -> bool {
    (a: Frame, b: Frame) => a.timestamp.Some? && b.timestamp.Some? && a.timestamp.value < b.timestamp.value
  }

  /** Accepted timestamps strictly increase on every stream, so nothing is accepted twice. */
  lemma {:induction false} AcceptedStrictlyIncrease(frames: seq<Frame>, stream: Stream)
    ensures Ordered(Earlier(), Filter(OnStream(stream), Accepted(frames)))
  {
    if frames != [] {
      var before, f := frames[..|frames| - 1], frames[|frames| - 1];
      AcceptedStrictlyIncrease(before, stream);
      if Accepts(Run(before), f) {
        var part := Filter(OnStream(stream), Accepted(before));
        FilterConcat(OnStream(stream), Accepted(before), [f]);
        assert Filter(OnStream(stream), [f][1..]) == [];
        assert Filter(OnStream(stream), [f]) == if f.stream == stream then [f] else [];
        TrackerFollowsRules(before, f);
        if f.stream == stream {
          forall i | 0 <= i < |part| ensures Earlier()(part[i], f) {
            assert part[i] in part;
            FilterMember(OnStream(stream), Accepted(before), part[i]);
            assert Known(Accepted(before), stream);
          }
          OrderedSnoc(Earlier(), part, f);
        }
      } else {
        assert Accepted(frames) == Accepted(before);
      }
    }
  }

  class ReplayTracker {
    var max: map<Stream, int>
    var maxAccepted: int

    ghost function Abs(): Tracker
      reads this
    {
      Tracker(max, maxAccepted)
    }

    constructor ()
      ensures Abs() == Fresh
    {
      max, maxAccepted := map[], 0;
    }

    method CheckFrame(f: Frame) returns (accepted: bool)
      modifies this
      ensures accepted == Accepts(old(Abs()), f) && Abs() == Check(old(Abs()), f)
    {
      if f.timestamp.None? {
        return false;
      }
      var ts := f.timestamp.value;
      if f.stream !in max {
        var clock := if f.now.Some? then f.now.value else 0;
        var reference := if clock > maxAccepted then clock else maxAccepted;
        if ts < reference - FRESHNESS_WINDOW || |max| >= MAX_SIGNING_STREAMS {
          return false;
        }
      } else if ts <= max[f.stream] {
        return false;
      }
      max := max[f.stream := ts];
      if ts > maxAccepted {
        maxAccepted := ts;
      }
      return true;
    }
  }
}
