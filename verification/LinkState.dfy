/** The sender's side of a link: sequence numbers per identity and signing timestamps per stream. */
module LinkStates {
  import opened Wrappers
  import RT = ReplayTrackers

  datatype Identity = Identity(sysid: int, compid: int)

  /** Milliseconds of 2015-01-01, the signing epoch. */
  const SIGNATURE_START := 1420070400000

  /** A wire timestamp counts 10 microseconds from the epoch. */
  function WireTimestamp(ms: int): int {
    (ms - SIGNATURE_START) * 100
  }

  function Last(signMs: map<RT.Stream, int>, stream: RT.Stream): int {
    if stream in signMs then signMs[stream] else 0
  }

  /** The clock if it moved on, else one more than last time. */
  function NextSign(last: int, now: int): int {
    if now > last then now else last + 1
  }

  function NextSeq(seqs: map<Identity, nat>, id: Identity): nat {
    if id in seqs then seqs[id] else 0
  }

  class LinkState {
    var seqs: map<Identity, nat>
    var signMs: map<RT.Stream, int>

    constructor ()
      ensures seqs == map[] && signMs == map[]
    {
      seqs, signMs := map[], map[];
    }

    method TakeSeq(id: Identity) returns (seqNo: nat)
      modifies `seqs
      ensures seqNo == NextSeq(old(seqs), id)
      ensures seqs == old(seqs)[id := (seqNo + 1) % 256]
    {
      seqNo := if id in seqs then seqs[id] else 0;
      seqs := seqs[id := (seqNo + 1) % 256];
    }

    method TakeSignTimestampMs(stream: RT.Stream, now: int) returns (ms: int)
      modifies `signMs
      ensures ms == NextSign(Last(old(signMs), stream), now)
      ensures ms > Last(old(signMs), stream) && ms >= now && (ms == now || ms == Last(old(signMs), stream) + 1)
      ensures signMs == old(signMs)[stream := ms]
    {
      var last := if stream in signMs then signMs[stream] else 0;
      ms := if now > last then now else last + 1;
      signMs := signMs[stream := ms];
    }
  }

  // Sequence numbers

  function AfterSeqs(ids: seq<Identity>): map<Identity, nat> {
    if ids == [] then map[]
    else
      var before, id := AfterSeqs(ids[..|ids| - 1]), ids[|ids| - 1];
      before[id := (NextSeq(before, id) + 1) % 256]
  }

  function Occurrences(ids: seq<Identity>, id: Identity): nat {
    if ids == [] then 0 else Occurrences(ids[..|ids| - 1], id) + if ids[|ids| - 1] == id then 1 else 0
  }

  /** However the identities interleave, the k-th frame of each carries k modulo 256. */
  lemma {:induction false} SequencesAreIndependent(ids: seq<Identity>, id: Identity)
    ensures NextSeq(AfterSeqs(ids), id) == Occurrences(ids, id) % 256
  {
    if ids != [] {
      SequencesAreIndependent(ids[..|ids| - 1], id);
    }
  }

  // An honest sender and the replay check

  /** `Emit` is a frame of the honest sender that arrives, `Lose` one that does not; the clocks are whatever
      sender and receiver read.  `Replay` is an earlier frame of the stream arriving once more, `Foreign` a
      frame on another stream. */
  datatype Event = Emit(now: int, receiverNow: Option<int>) | Lose(now: int)
    | Replay(emitted: int, receiverNow: Option<int>) | Foreign(frame: RT.Frame)

  /** `last` is the sender's last timestamp on the stream, `newest` the last one that arrived. */
  datatype Link = Link(tracker: RT.Tracker, last: int, newest: int)

  function FrameOf(stream: RT.Stream, ms: int, now: Option<int>): RT.Frame {
    RT.Frame(stream, Some(WireTimestamp(ms)), now)
  }

  /** Replays are of frames that were on the air before the newest arrival, foreign frames keep to their streams. */
  predicate Possible(k: Link, stream: RT.Stream, e: Event) {
    match e
    case Emit(_, _) => true
    case Lose(_) => true
    case Replay(ms, _) => ms <= k.newest
    case Foreign(f) => f.stream != stream
  }

  function Incoming(k: Link, stream: RT.Stream, e: Event): Option<RT.Frame> {
    match e
    case Emit(now, receiverNow) => Some(FrameOf(stream, NextSign(k.last, now), receiverNow))
    case Lose(_) => None
    case Replay(ms, receiverNow) => Some(FrameOf(stream, ms, receiverNow))
    case Foreign(f) => Some(f)
  }

  function Step(k: Link, stream: RT.Stream, e: Event): Link {
    var f := Incoming(k, stream, e);
    var tracker := if f.Some? then RT.Check(k.tracker, f.value) else k.tracker;
    match e
    case Emit(now, _) => Link(tracker, NextSign(k.last, now), NextSign(k.last, now))
    case Lose(now) => Link(tracker, NextSign(k.last, now), k.newest)
    case _ => Link(tracker, k.last, k.newest)
  }

  function Run(k: Link, stream: RT.Stream, events: seq<Event>): Link {
    if events == [] then k else Step(Run(k, stream, events[..|events| - 1]), stream, events[|events| - 1])
  }

  /** The receiver has the stream open at the newest frame that arrived. */
  ghost predicate InStep(k: Link, stream: RT.Stream) {
    && stream in k.tracker.max && k.tracker.max[stream] == WireTimestamp(k.newest)
    && k.newest <= k.last
  }

  ghost predicate AllPossible(k: Link, stream: RT.Stream, events: seq<Event>) {
    forall i :: 0 <= i < |events| ==> Possible(Run(k, stream, events[..i]), stream, events[i])
  }

  lemma {:induction false} StaysInStep(k: Link, stream: RT.Stream, events: seq<Event>)
    requires InStep(k, stream) && AllPossible(k, stream, events)
    ensures InStep(Run(k, stream, events), stream)
  {
    if events != [] {
      var before := events[..|events| - 1];
      forall i | 0 <= i < |before| ensures Possible(Run(k, stream, before[..i]), stream, before[i]) {
        assert before[..i] == events[..i];
      }
      StaysInStep(k, stream, before);
      assert events[..|events| - 1] == before;
    }
  }

  /** On an open stream every frame of an honest sender that arrives is accepted, even if the sender's clock
      stalls or runs backwards and whatever the receiver's clock says, and every replay is refused. */
  lemma HonestFramesAreAccepted(k: Link, stream: RT.Stream, events: seq<Event>, e: Event)
    requires InStep(k, stream) && AllPossible(k, stream, events) && Possible(Run(k, stream, events), stream, e)
    ensures e.Emit? ==> RT.Accepts(Run(k, stream, events).tracker, Incoming(Run(k, stream, events), stream, e).value)
    ensures e.Replay? ==> !RT.Accepts(Run(k, stream, events).tracker, Incoming(Run(k, stream, events), stream, e).value)
  {
    StaysInStep(k, stream, events);
  }
}
