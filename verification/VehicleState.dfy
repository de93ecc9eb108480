/** Vehicle state: what the engine remembers, what a snapshot shows, and the events between two snapshots. */
module VehicleStates {
  import opened Wrappers

  const AUTOPILOT1 := 1
  const DEFAULT_STALE_MS := 5000

  // Messages and records

  /** The sections kept here; `AutopilotSection` is an autopilot-owned message whose section is not. */
  datatype Message =
    | Heartbeat(kind: int, firmware: int, baseMode: nat, customMode: int)
    | HomePosition(lat: int, lon: int)
    | GpsRawInt(fixType: int)
    | SysStatus(present: int, enabled: int, health: int)
    | ExtendedSysState(landedState: int)
    | AutopilotSection
    | StatusText
    | Unrelated

  /** `sysid` is absent when it is not an integer. */
  datatype Payload = Payload(sysid: Option<int>, compid: int, message: Message)

  datatype Autopilot = Autopilot(kind: int, firmware: int, baseMode: nat, customMode: int, lastHeartbeat: int)
  datatype Home = Home(lat: int, lon: int)
  datatype Health = Health(present: nat, enabled: nat, healthy: nat)
  datatype Component = Component(compid: int, lastSeen: int)
  datatype Vehicle = Vehicle(
    autopilot: Option<Autopilot>, components: seq<Component>, home: Option<Home>, fixType: Option<int>,
    health: Option<Health>, landed: Option<int>)

  const NewVehicle := Vehicle(None, [], None, None, None, None)

  datatype Mode = Named(name: string) | Numbered(customMode: int)
  datatype Landed = Unknown | OnGround | InAir | Takeoff | Landing
  datatype Presence = Presence(compid: int, stale: bool)
  datatype Sensor = Sensor(bit: nat, present: bool, enabled: bool, healthy: bool)
  datatype Snapshot = Snapshot(
    connected: bool, armed: Option<bool>, mode: Option<Mode>, landed: Landed, fixType: Option<int>,
    home: Option<Home>, components: seq<Presence>, health: Option<seq<Sensor>>)

  // Ingesting

  predicate IsVehicleId(sysid: Option<int>) {
    sysid.Some? && 1 <= sysid.value <= 255
  }

  /** Heartbeats and status texts count from any component, everything else only from the autopilot. */
  predicate Tracked(p: Payload) {
    IsVehicleId(p.sysid) &&
    (p.message.Heartbeat? || p.message.StatusText? || (!p.message.Unrelated? && p.compid == AUTOPILOT1))
  }

  function Seen(components: seq<Component>, c: Component): seq<Component> {
    if components == [] then [c]
    else if components[0].compid == c.compid then [c] + components[1..]
    else [components[0]] + Seen(components[1..], c)
  }

  function Uint32(x: int): nat {
    x % 0x1_0000_0000
  }

  function Update(v: Vehicle, p: Payload, now: int): Vehicle {
    match p.message
    case Heartbeat(kind, firmware, baseMode, customMode) =>
      var seen := v.(components := Seen(v.components, Component(p.compid, now)));
      if p.compid != AUTOPILOT1 then seen
      else seen.(autopilot := Some(Autopilot(kind, firmware, baseMode, customMode, now)))
    case HomePosition(lat, lon) => v.(home := Some(Home(lat, lon)))
    case GpsRawInt(fixType) => v.(fixType := Some(fixType))
    case SysStatus(present, enabled, health) =>
      v.(health := Some(Health(Uint32(present), Uint32(enabled), Uint32(health))))
    case ExtendedSysState(landedState) => v.(landed := Some(landedState))
    case _ => v
  }

  function Ingested(vehicles: map<int, Vehicle>, p: Payload, now: int): map<int, Vehicle> {
    if !Tracked(p) then vehicles
    else
      var id := p.sysid.value;
      vehicles[id := Update(if id in vehicles then vehicles[id] else NewVehicle, p, now)]
  }

  // Snapshots

  function Pow2(n: nat): (p: nat)
    ensures p > 0
  {
    if n == 0 then 1 else 2 * Pow2(n - 1)
  }

  predicate HasBit(mask: nat, bit: nat) {
    mask / Pow2(bit) % 2 == 1
  }

  predicate Mentions(h: Health, bit: nat) {
    HasBit(h.present, bit) || HasBit(h.enabled, bit) || HasBit(h.healthy, bit)
  }

  /** The sensors below `limit` that appear in any of the three masks. */
  function Sensors(h: Health, limit: nat): seq<Sensor> {
    if limit == 0 then []
    else
      var bit := limit - 1;
      Sensors(h, bit) +
      if Mentions(h, bit)
      then [Sensor(bit, HasBit(h.present, bit), HasBit(h.enabled, bit), HasBit(h.healthy, bit))] else []
  }

  function LandedOf(state: Option<int>): Landed {
    if state == Some(1) then OnGround
    else if state == Some(2) then InAir
    else if state == Some(3) then Takeoff
    else if state == Some(4) then Landing
    else Unknown
  }

  /** The dialect's readable name of the mode for vehicle type, firmware and custom mode, if it has one. */
  type ModeNames = (int, int, int) -> Option<string>

  /** The readable name, or else the number. */
  function ModeShown(modeName: ModeNames, kind: int, firmware: int, customMode: int): Mode {
    var name := modeName(kind, firmware, customMode);
    if name.Some? then Named(name.value) else Numbered(customMode)
  }

  function SnapshotOf(v: Vehicle, modeName: ModeNames, staleMs: int, now: int): Snapshot {
    var ap := v.autopilot;
    Snapshot(
      ap.Some? && now - ap.value.lastHeartbeat <= staleMs,
      if ap.Some? then Some(HasBit(ap.value.baseMode, 7)) else None,
      if ap.None? then None else Some(ModeShown(modeName, ap.value.kind, ap.value.firmware, ap.value.customMode)),
      LandedOf(v.landed), v.fixType, v.home,
      seq(|v.components|, i requires 0 <= i < |v.components| =>
        Presence(v.components[i].compid, now - v.components[i].lastSeen > staleMs)),
      if v.health.Some? then Some(Sensors(v.health.value, 32)) else None)
  }

  // Events

  datatype Event =
    | ConnectionEdge(was: bool, connected: bool)
    | ArmedEdge(before: Option<bool>, armed: bool)
    | ModeChange(oldMode: Option<Mode>, newMode: Option<Mode>)
    | LandedChange(oldState: Landed, newState: Landed)
    | GpsFixChange(oldFix: Option<int>, newFix: int)
    | HomeSet(home: Home)
    | ComponentAppeared(compid: int)
    | ComponentLost(compid: int)
    | SensorHealthChange(bit: nat, oldHealthy: Option<bool>, healthy: Option<bool>)

  /** A list without its repetitions: the iteration order of a JavaScript `Set`. */
  function Distinct<T(==)>(s: seq<T>): seq<T> {
    if s == [] then []
    else
      var d := Distinct(s[..|s| - 1]);
      if s[|s| - 1] in d then d else d + [s[|s| - 1]]
  }

  function Live(components: seq<Presence>): seq<int> {
    if components == [] then []
    else Live(components[..|components| - 1]) +
         if components[|components| - 1].stale then [] else [components[|components| - 1].compid]
  }

  function SensorsIn(s: Snapshot): seq<Sensor> {
    if s.health.Some? then s.health.value else []
  }

  function Bits(sensors: seq<Sensor>): seq<nat> {
    seq(|sensors|, i requires 0 <= i < |sensors| => sensors[i].bit)
  }

  /** Absent when the sensor is in none of the masks. */
  function HealthOf(sensors: seq<Sensor>, bit: nat): Option<bool> {
    if sensors == [] then None
    else if sensors[|sensors| - 1].bit == bit then Some(sensors[|sensors| - 1].healthy)
    else HealthOf(sensors[..|sensors| - 1], bit)
  }

  /** Neither an unchanged sensor nor one that turns up healthy is worth an event. */
  predicate Silent(before: Option<bool>, after: Option<bool>) {
    before == after || (before.None? && after == Some(true))
  }

  function Appeared(prev: seq<int>, next: seq<int>): seq<Event> {
    if next == [] then []
    else
      var id := next[|next| - 1];
      Appeared(prev, next[..|next| - 1]) + if id in prev then [] else [ComponentAppeared(id)]
  }

  function Lost(prev: seq<int>, next: seq<int>): seq<Event> {
    if prev == [] then []
    else
      var id := prev[|prev| - 1];
      Lost(prev[..|prev| - 1], next) + if id in next then [] else [ComponentLost(id)]
  }

  function SensorEdges(bits: seq<nat>, prev: seq<Sensor>, next: seq<Sensor>): seq<Event> {
    if bits == [] then []
    else SensorEdges(bits[..|bits| - 1], prev, next) + EdgeAt(bits[|bits| - 1], prev, next)
  }

  function EdgeAt(bit: nat, prev: seq<Sensor>, next: seq<Sensor>): seq<Event> {
    var before, after := HealthOf(prev, bit), HealthOf(next, bit);
    if Silent(before, after) then [] else [SensorHealthChange(bit, before, after)]
  }

  function ArmedEdges(p: Snapshot, n: Snapshot): seq<Event> {
    if p.armed != n.armed && n.armed.Some? then [ArmedEdge(p.armed, n.armed.value)] else []
  }

  function ModeEdges(p: Snapshot, n: Snapshot): seq<Event> {
    if n.mode.Some? && p.mode != n.mode then [ModeChange(p.mode, n.mode)] else []
  }

  function LandedEdges(p: Snapshot, n: Snapshot): seq<Event> {
    if p.landed != n.landed then [LandedChange(p.landed, n.landed)] else []
  }

  function FixEdges(p: Snapshot, n: Snapshot): seq<Event> {
    if p.fixType != n.fixType && n.fixType.Some? then [GpsFixChange(p.fixType, n.fixType.value)] else []
  }

  function HomeEdges(p: Snapshot, n: Snapshot): seq<Event> {
    if p.home.None? && n.home.Some? then [HomeSet(n.home.value)] else []
  }

  function ScalarEdges(p: Snapshot, n: Snapshot): seq<Event> {
    ArmedEdges(p, n) + ModeEdges(p, n) + LandedEdges(p, n) + FixEdges(p, n) + HomeEdges(p, n)
  }

  function ConnectionEdges(was: bool, connected: bool): seq<Event> {
    if was != connected then [ConnectionEdge(was, connected)] else []
  }

  function Diff(prev: Option<Snapshot>, n: Snapshot): seq<Event> {
    if prev.None? then ConnectionEdges(false, n.connected)
    else
      var p := prev.value;
      var pLive, nLive := Distinct(Live(p.components)), Distinct(Live(n.components));
      ConnectionEdges(p.connected, n.connected) + ScalarEdges(p, n) + Appeared(pLive, nLive) + Lost(pLive, nLive)
      + SensorEdges(Distinct(Bits(SensorsIn(p)) + Bits(SensorsIn(n))), SensorsIn(p), SensorsIn(n))
  }

  // What a listener to the events knows

  datatype View = View(
    connected: bool, armed: Option<bool>, mode: Option<Mode>, landed: Landed, fixType: Option<int>, homeKnown: bool,
    live: set<int>, unhealthy: set<nat>)

  function ViewOf(s: Snapshot): View {
    View(s.connected, s.armed, s.mode, s.landed, s.fixType, s.home.Some?,
      set c | c in s.components && !c.stale :: c.compid,
      set x | x in SensorsIn(s) && HealthOf(SensorsIn(s), x.bit) == Some(false) :: x.bit)
  }

  function Apply(v: View, e: Event): View {
    match e
    case ConnectionEdge(_, connected) => v.(connected := connected)
    case ArmedEdge(_, armed) => v.(armed := Some(armed))
    case ModeChange(_, mode) => v.(mode := mode)
    case LandedChange(_, landed) => v.(landed := landed)
    case GpsFixChange(_, fix) => v.(fixType := Some(fix))
    case HomeSet(_) => v.(homeKnown := true)
    case ComponentAppeared(id) => v.(live := v.live + {id})
    case ComponentLost(id) => v.(live := v.live - {id})
    case SensorHealthChange(bit, _, healthy) =>
      v.(unhealthy := if healthy == Some(false) then v.unhealthy + {bit} else v.unhealthy - {bit})
  }

  function Fold(v: View, events: seq<Event>): View {
    if events == [] then v else Apply(Fold(v, events[..|events| - 1]), events[|events| - 1])
  }

  lemma {:induction false} FoldConcat(v: View, a: seq<Event>, b: seq<Event>)
    ensures Fold(v, a + b) == Fold(Fold(v, a), b)
  {
    if b == [] {
      assert a + b == a;
    } else {
      assert (a + b)[..|a + b| - 1] == a + b[..|b| - 1];
      FoldConcat(v, a, b[..|b| - 1]);
    }
  }

  lemma FoldLast(v: View, es: seq<Event>, last: seq<Event>)
    requires |last| <= 1
    ensures Fold(v, es + last) == if last == [] then Fold(v, es) else Apply(Fold(v, es), last[0])
  {
    FoldConcat(v, es, last);
    assert last != [] ==> last[..0] == [];
  }

  lemma FoldOne(v: View, es: seq<Event>)
    requires |es| <= 1
    ensures Fold(v, es) == if es == [] then v else Apply(v, es[0])
  {
    if es != [] {
      assert es[..0] == [];
    }
  }

  lemma FoldFive(v: View, a: seq<Event>, b: seq<Event>, c: seq<Event>, d: seq<Event>, e: seq<Event>)
    ensures Fold(v, a + b + c + d + e) == Fold(Fold(Fold(Fold(Fold(v, a), b), c), d), e)
  {
    FoldConcat(v, a, b);
    FoldConcat(v, a + b, c);
    FoldConcat(v, a + b + c, d);
    FoldConcat(v, a + b + c + d, e);
  }

  lemma {:induction false} FoldAppeared(v: View, prev: seq<int>, next: seq<int>)
    ensures var w := Fold(v, Appeared(prev, next));
      && w == v.(live := w.live)
      && forall x :: x in w.live <==> x in v.live || (x in next && x !in prev)
  {
    if next != [] {
      var init, id := next[..|next| - 1], next[|next| - 1];
      FoldAppeared(v, prev, init);
      FoldLast(v, Appeared(prev, init), if id in prev then [] else [ComponentAppeared(id)]);
      assert forall x :: x in next <==> x in init || x == id;
    }
  }

  lemma {:induction false} FoldLost(v: View, prev: seq<int>, next: seq<int>)
    ensures var w := Fold(v, Lost(prev, next));
      && w == v.(live := w.live)
      && forall x :: x in w.live <==> x in v.live && !(x in prev && x !in next)
  {
    if prev != [] {
      var init, id := prev[..|prev| - 1], prev[|prev| - 1];
      FoldLost(v, init, next);
      FoldLast(v, Lost(init, next), if id in next then [] else [ComponentLost(id)]);
      assert forall x :: x in prev <==> x in init || x == id;
    }
  }

  /** Every sensor in `bits` is as in the newer snapshot, the others as in the older. */
  ghost predicate Agrees(unhealthy: set<nat>, bits: seq<nat>, prev: seq<Sensor>, next: seq<Sensor>) {
    forall bit :: bit in unhealthy <==> HealthOf(if bit in bits then next else prev, bit) == Some(false)
  }

  lemma SensorStep(v: View, bits: seq<nat>, prev: seq<Sensor>, next: seq<Sensor>)
    requires bits != [] && Agrees(v.unhealthy, bits[..|bits| - 1], prev, next)
    ensures var w := Fold(v, EdgeAt(bits[|bits| - 1], prev, next));
      w == v.(unhealthy := w.unhealthy) && Agrees(w.unhealthy, bits, prev, next)
  {
    var init, bit := bits[..|bits| - 1], bits[|bits| - 1];
    FoldOne(v, EdgeAt(bit, prev, next));
    var w := Fold(v, EdgeAt(bit, prev, next));
    forall x: nat ensures x in w.unhealthy <==> HealthOf(if x in bits then next else prev, x) == Some(false) {
      assert x in bits <==> x in init || x == bit;
      assert x in v.unhealthy <==> HealthOf(if x in init then next else prev, x) == Some(false);
    }
  }

  lemma {:induction false} FoldSensors(v: View, bits: seq<nat>, prev: seq<Sensor>, next: seq<Sensor>)
    requires forall bit :: bit in v.unhealthy <==> HealthOf(prev, bit) == Some(false)
    ensures var w := Fold(v, SensorEdges(bits, prev, next));
      w == v.(unhealthy := w.unhealthy) && Agrees(w.unhealthy, bits, prev, next)
  {
    if bits != [] {
      var init := SensorEdges(bits[..|bits| - 1], prev, next);
      FoldSensors(v, bits[..|bits| - 1], prev, next);
      SensorStep(Fold(v, init), bits, prev, next);
      FoldConcat(v, init, EdgeAt(bits[|bits| - 1], prev, next));
    }
  }

  lemma {:induction false} DistinctMembers<T>(s: seq<T>)
    ensures forall x :: x in Distinct(s) <==> x in s
  {
    if s != [] {
      DistinctMembers(s[..|s| - 1]);
      assert s == s[..|s| - 1] + [s[|s| - 1]];
    }
  }

  lemma {:induction false} LiveMembers(components: seq<Presence>, id: int)
    ensures id in Live(components) <==> exists c :: c in components && !c.stale && c.compid == id
  {
    if components != [] {
      LiveMembers(components[..|components| - 1], id);
      assert components == components[..|components| - 1] + [components[|components| - 1]];
    }
  }

  lemma {:induction false} HealthNeedsSensor(sensors: seq<Sensor>, bit: nat)
    ensures HealthOf(sensors, bit).Some? <==> bit in Bits(sensors)
    ensures bit in Bits(sensors) <==> exists x :: x in sensors && x.bit == bit
  {
    if sensors != [] {
      var init, last := sensors[..|sensors| - 1], sensors[|sensors| - 1];
      HealthNeedsSensor(init, bit);
      assert sensors == init + [last] && Bits(sensors) == Bits(init) + [last.bit];
    }
  }

  lemma ViewFacts(s: Snapshot)
    ensures forall id :: id in ViewOf(s).live <==> id in Distinct(Live(s.components))
    ensures forall bit :: bit in ViewOf(s).unhealthy <==> HealthOf(SensorsIn(s), bit) == Some(false)
  {
    DistinctMembers(Live(s.components));
    forall id ensures id in ViewOf(s).live <==> id in Live(s.components) {
      LiveMembers(s.components, id);
    }
    forall bit ensures bit in ViewOf(s).unhealthy <==> HealthOf(SensorsIn(s), bit) == Some(false) {
      HealthNeedsSensor(SensorsIn(s), bit);
    }
  }

  /** What has been known once is still known. */
  predicate Keeps(p: Snapshot, n: Snapshot) {
    && (p.armed.Some? ==> n.armed.Some?) && (p.mode.Some? ==> n.mode.Some?)
    && (p.fixType.Some? ==> n.fixType.Some?) && (p.home.Some? ==> n.home.Some?)
  }

  function Newest<T>(earlier: Option<T>, later: Option<T>): Option<T> {
    if later.Some? then later else earlier
  }

  lemma FoldConnection(v: View, connected: bool)
    ensures Fold(v, ConnectionEdges(v.connected, connected)) == v.(connected := connected)
  {
    FoldOne(v, ConnectionEdges(v.connected, connected));
  }

  lemma FoldArmed(v: View, p: Snapshot, n: Snapshot)
    requires v.armed == p.armed
    ensures Fold(v, ArmedEdges(p, n)) == v.(armed := Newest(p.armed, n.armed))
  {
    FoldOne(v, ArmedEdges(p, n));
  }

  lemma FoldMode(v: View, p: Snapshot, n: Snapshot)
    requires v.mode == p.mode
    ensures Fold(v, ModeEdges(p, n)) == v.(mode := Newest(p.mode, n.mode))
  {
    FoldOne(v, ModeEdges(p, n));
  }

  lemma FoldLanded(v: View, p: Snapshot, n: Snapshot)
    requires v.landed == p.landed
    ensures Fold(v, LandedEdges(p, n)) == v.(landed := n.landed)
  {
    FoldOne(v, LandedEdges(p, n));
  }

  lemma FoldFix(v: View, p: Snapshot, n: Snapshot)
    requires v.fixType == p.fixType
    ensures Fold(v, FixEdges(p, n)) == v.(fixType := Newest(p.fixType, n.fixType))
  {
    FoldOne(v, FixEdges(p, n));
  }

  lemma FoldHome(v: View, p: Snapshot, n: Snapshot)
    requires v.homeKnown == p.home.Some?
    ensures Fold(v, HomeEdges(p, n)) == v.(homeKnown := Newest(p.home, n.home).Some?)
  {
    FoldOne(v, HomeEdges(p, n));
  }

  function ScalarsOf(v: View, p: Snapshot, n: Snapshot): View {
    View(v.connected, Newest(p.armed, n.armed), Newest(p.mode, n.mode), n.landed, Newest(p.fixType, n.fixType),
      Newest(p.home, n.home).Some?, v.live, v.unhealthy)
  }

  lemma FoldScalars(v: View, p: Snapshot, n: Snapshot)
    requires v.armed == p.armed && v.mode == p.mode && v.landed == p.landed && v.fixType == p.fixType
    requires v.homeKnown == p.home.Some?
    ensures Fold(v, ScalarEdges(p, n)) == ScalarsOf(v, p, n)
  {
    FoldFive(v, ArmedEdges(p, n), ModeEdges(p, n), LandedEdges(p, n), FixEdges(p, n), HomeEdges(p, n));
    var v1 := v.(armed := Newest(p.armed, n.armed));
    var v2 := v1.(mode := Newest(p.mode, n.mode));
    var v3 := v2.(landed := n.landed);
    var v4 := v3.(fixType := Newest(p.fixType, n.fixType));
    FoldArmed(v, p, n);
    FoldMode(v1, p, n);
    FoldLanded(v2, p, n);
    FoldFix(v3, p, n);
    FoldHome(v4, p, n);
  }

  lemma FoldComponents(v: View, p: Snapshot, n: Snapshot)
    requires v.live == ViewOf(p).live
    ensures var pLive, nLive := Distinct(Live(p.components)), Distinct(Live(n.components));
      Fold(Fold(v, Appeared(pLive, nLive)), Lost(pLive, nLive)) == v.(live := ViewOf(n).live)
  {
    var pLive, nLive := Distinct(Live(p.components)), Distinct(Live(n.components));
    ViewFacts(p);
    ViewFacts(n);
    FoldAppeared(v, pLive, nLive);
    var w := Fold(v, Appeared(pLive, nLive));
    FoldLost(w, pLive, nLive);
    forall id ensures id in Fold(w, Lost(pLive, nLive)).live <==> id in ViewOf(n).live {
      assert id in v.live <==> id in pLive;
      assert id in ViewOf(n).live <==> id in nLive;
    }
  }

  lemma FoldHealth(v: View, p: Snapshot, n: Snapshot)
    requires v.unhealthy == ViewOf(p).unhealthy
    ensures var bits := Distinct(Bits(SensorsIn(p)) + Bits(SensorsIn(n)));
      Fold(v, SensorEdges(bits, SensorsIn(p), SensorsIn(n))) == v.(unhealthy := ViewOf(n).unhealthy)
  {
    var bits := Distinct(Bits(SensorsIn(p)) + Bits(SensorsIn(n)));
    ViewFacts(p);
    ViewFacts(n);
    FoldSensors(v, bits, SensorsIn(p), SensorsIn(n));
    SensorsOutside(p, n, bits);
    assert Fold(v, SensorEdges(bits, SensorsIn(p), SensorsIn(n))).unhealthy == ViewOf(n).unhealthy;
  }

  lemma DiffFolds(p: Snapshot, n: Snapshot)
    ensures Fold(ViewOf(p), Diff(Some(p), n)) ==
      ScalarsOf(ViewOf(p), p, n).(connected := n.connected, live := ViewOf(n).live, unhealthy := ViewOf(n).unhealthy)
  {
    var pLive, nLive := Distinct(Live(p.components)), Distinct(Live(n.components));
    var bits := Distinct(Bits(SensorsIn(p)) + Bits(SensorsIn(n)));
    var v0 := ViewOf(p);
    FoldFive(v0, ConnectionEdges(p.connected, n.connected), ScalarEdges(p, n),
      Appeared(pLive, nLive), Lost(pLive, nLive),
      SensorEdges(bits, SensorsIn(p), SensorsIn(n)));
    var v1 := v0.(connected := n.connected);
    var v2 := ScalarsOf(v1, p, n);
    FoldConnection(v0, n.connected);
    FoldScalars(v1, p, n);
    FoldComponents(v2, p, n);
    FoldHealth(v2.(live := ViewOf(n).live), p, n);
  }

  /** The events between two snapshots turn the view of the first into that of the second, provided nothing
      that was known has become unknown; and not otherwise. */
  lemma DiffReplays(p: Snapshot, n: Snapshot)
    ensures Fold(ViewOf(p), Diff(Some(p), n)) == ViewOf(n) <==> Keeps(p, n)
  {
    DiffFolds(p, n);
  }

  lemma SensorsOutside(p: Snapshot, n: Snapshot, bits: seq<nat>)
    requires bits == Distinct(Bits(SensorsIn(p)) + Bits(SensorsIn(n)))
    ensures forall bit :: bit !in bits ==> HealthOf(SensorsIn(p), bit).None? && HealthOf(SensorsIn(n), bit).None?
  {
    DistinctMembers(Bits(SensorsIn(p)) + Bits(SensorsIn(n)));
    forall bit | bit !in bits ensures HealthOf(SensorsIn(p), bit).None? && HealthOf(SensorsIn(n), bit).None? {
      HealthNeedsSensor(SensorsIn(p), bit);
      HealthNeedsSensor(SensorsIn(n), bit);
    }
  }

  // What an event says of the past

  /** The event starts from what the listener knows, and tells of a change. */
  ghost predicate Continues(v: View, e: Event) {
    match e
    case ConnectionEdge(was, connected) => was == v.connected != connected
    case ArmedEdge(before, armed) => before == v.armed != Some(armed)
    case ModeChange(before, mode) => before == v.mode != mode
    case LandedChange(before, landed) => before == v.landed != landed
    case GpsFixChange(before, fix) => before == v.fixType != Some(fix)
    case HomeSet(_) => !v.homeKnown
    case ComponentAppeared(id) => id !in v.live
    case ComponentLost(id) => id in v.live
    case SensorHealthChange(bit, before, after) => before != after && (before == Some(false) <==> bit in v.unhealthy)
  }

  ghost predicate AllContinue(v: View, events: seq<Event>) {
    forall i :: 0 <= i < |events| ==> Continues(Fold(v, events[..i]), events[i])
  }

  lemma ContinueConcat(v: View, a: seq<Event>, b: seq<Event>)
    requires AllContinue(v, a) && AllContinue(Fold(v, a), b)
    ensures AllContinue(v, a + b)
  {
    forall i | 0 <= i < |a + b| ensures Continues(Fold(v, (a + b)[..i]), (a + b)[i]) {
      if i < |a| {
        assert (a + b)[..i] == a[..i];
      } else {
        assert (a + b)[..i] == a + b[..i - |a|];
        FoldConcat(v, a, b[..i - |a|]);
      }
    }
  }

  lemma ContinueOne(v: View, es: seq<Event>)
    requires |es| <= 1 && (es != [] ==> Continues(v, es[0]))
    ensures AllContinue(v, es)
  {
    assert es != [] ==> es[..0] == [];
  }

  lemma {:induction false} AppearedContinues(v: View, prev: seq<int>, next: seq<int>)
    requires (forall i, j :: 0 <= i < j < |next| ==> next[i] != next[j]) && forall x :: x in v.live <==> x in prev
    ensures AllContinue(v, Appeared(prev, next))
  {
    if next != [] {
      var init, id := next[..|next| - 1], next[|next| - 1];
      AppearedContinues(v, prev, init);
      FoldAppeared(v, prev, init);
      var last := if id in prev then [] else [ComponentAppeared(id)];
      assert id !in init by {
        assert forall i :: 0 <= i < |init| ==> init[i] == next[i];
      }
      ContinueOne(Fold(v, Appeared(prev, init)), last);
      ContinueConcat(v, Appeared(prev, init), last);
    }
  }

  lemma {:induction false} LostContinues(v: View, prev: seq<int>, next: seq<int>)
    requires (forall i, j :: 0 <= i < j < |prev| ==> prev[i] != prev[j]) && forall x :: x in prev ==> x in v.live
    ensures AllContinue(v, Lost(prev, next))
  {
    if prev != [] {
      var init, id := prev[..|prev| - 1], prev[|prev| - 1];
      LostContinues(v, init, next);
      FoldLost(v, init, next);
      var last := if id in next then [] else [ComponentLost(id)];
      assert id !in init by {
        assert forall i :: 0 <= i < |init| ==> init[i] == prev[i];
      }
      ContinueOne(Fold(v, Lost(init, next)), last);
      ContinueConcat(v, Lost(init, next), last);
    }
  }

  lemma {:induction false} SensorsContinue(v: View, bits: seq<nat>, prev: seq<Sensor>, next: seq<Sensor>)
    requires (forall i, j :: 0 <= i < j < |bits| ==> bits[i] != bits[j])
    requires forall bit :: bit in v.unhealthy <==> HealthOf(prev, bit) == Some(false)
    ensures AllContinue(v, SensorEdges(bits, prev, next))
  {
    if bits != [] {
      var init, bit := bits[..|bits| - 1], bits[|bits| - 1];
      SensorsContinue(v, init, prev, next);
      FoldSensors(v, init, prev, next);
      var w := Fold(v, SensorEdges(init, prev, next));
      assert bit !in init by {
        assert forall i :: 0 <= i < |init| ==> init[i] == bits[i];
      }
      assert bit in w.unhealthy <==> HealthOf(if bit in init then next else prev, bit) == Some(false);
      ContinueOne(w, EdgeAt(bit, prev, next));
      ContinueConcat(v, SensorEdges(init, prev, next), EdgeAt(bit, prev, next));
    }
  }

  lemma {:induction false} DistinctIsDistinct<T>(s: seq<T>)
    ensures forall i, j :: 0 <= i < j < |Distinct(s)| ==> Distinct(s)[i] != Distinct(s)[j]
  {
    if s != [] {
      DistinctIsDistinct(s[..|s| - 1]);
    }
  }

  lemma ScalarsContinue(v: View, p: Snapshot, n: Snapshot)
    requires v.armed == p.armed && v.mode == p.mode && v.landed == p.landed && v.fixType == p.fixType
    requires v.homeKnown == p.home.Some?
    ensures AllContinue(v, ScalarEdges(p, n))
  {
    var v1 := v.(armed := Newest(p.armed, n.armed));
    var v2 := v1.(mode := Newest(p.mode, n.mode));
    var v3 := v2.(landed := n.landed);
    var v4 := v3.(fixType := Newest(p.fixType, n.fixType));
    FoldArmed(v, p, n);
    FoldMode(v1, p, n);
    FoldLanded(v2, p, n);
    FoldFix(v3, p, n);
    ContinueOne(v, ArmedEdges(p, n));
    ContinueOne(v1, ModeEdges(p, n));
    ContinueOne(v2, LandedEdges(p, n));
    ContinueOne(v3, FixEdges(p, n));
    ContinueOne(v4, HomeEdges(p, n));
    ContinueFive(v, ArmedEdges(p, n), ModeEdges(p, n), LandedEdges(p, n), FixEdges(p, n), HomeEdges(p, n));
  }

  lemma ContinueFive(v: View, a: seq<Event>, b: seq<Event>, c: seq<Event>, d: seq<Event>, e: seq<Event>)
    requires AllContinue(v, a) && AllContinue(Fold(v, a), b) && AllContinue(Fold(Fold(v, a), b), c)
    requires AllContinue(Fold(Fold(Fold(v, a), b), c), d) && AllContinue(Fold(Fold(Fold(Fold(v, a), b), c), d), e)
    ensures AllContinue(v, a + b + c + d + e)
  {
    FoldConcat(v, a, b);
    FoldConcat(v, a + b, c);
    FoldConcat(v, a + b + c, d);
    ContinueConcat(v, a, b);
    ContinueConcat(v, a + b, c);
    ContinueConcat(v, a + b + c, d);
    ContinueConcat(v, a + b + c + d, e);
  }

  /** Between any two snapshots the events form a chain: each starts from what the ones before it have told, and
      tells of a change. */
  lemma EventsContinue(p: Snapshot, n: Snapshot)
    ensures AllContinue(ViewOf(p), Diff(Some(p), n))
  {
    var pLive, nLive := Distinct(Live(p.components)), Distinct(Live(n.components));
    var bits := Distinct(Bits(SensorsIn(p)) + Bits(SensorsIn(n)));
    var v0 := ViewOf(p);
    var v1 := v0.(connected := n.connected);
    var v2 := ScalarsOf(v1, p, n);
    ViewFacts(p);
    DistinctIsDistinct(Live(p.components));
    DistinctIsDistinct(Live(n.components));
    DistinctIsDistinct(Bits(SensorsIn(p)) + Bits(SensorsIn(n)));
    FoldConnection(v0, n.connected);
    FoldScalars(v1, p, n);
    ContinueOne(v0, ConnectionEdges(p.connected, n.connected));
    ScalarsContinue(v1, p, n);
    AppearedContinues(v2, pLive, nLive);
    FoldAppeared(v2, pLive, nLive);
    LostContinues(Fold(v2, Appeared(pLive, nLive)), pLive, nLive);
    FoldComponents(v2, p, n);
    SensorsContinue(v2.(live := ViewOf(n).live), bits, SensorsIn(p), SensorsIn(n));
    ContinueFive(v0, ConnectionEdges(p.connected, n.connected), ScalarEdges(p, n),
      Appeared(pLive, nLive), Lost(pLive, nLive), SensorEdges(bits, SensorsIn(p), SensorsIn(n)));
  }

  /** What an event carries beside the change is taken from the two snapshots. */
  lemma {:induction false} SensorEdgesSayBoth(bits: seq<nat>, prev: seq<Sensor>, next: seq<Sensor>)
    ensures forall e :: e in SensorEdges(bits, prev, next) ==>
      e.SensorHealthChange? && e.oldHealthy == HealthOf(prev, e.bit) && e.healthy == HealthOf(next, e.bit)
  {
    if bits != [] {
      SensorEdgesSayBoth(bits[..|bits| - 1], prev, next);
    }
  }

  lemma {:induction false} OnlyComponentEvents(prev: seq<int>, next: seq<int>)
    ensures forall e :: e in Appeared(prev, next) ==> e.ComponentAppeared?
    ensures forall e :: e in Lost(next, prev) ==> e.ComponentLost?
  {
    if next != [] {
      OnlyComponentEvents(prev, next[..|next| - 1]);
    }
  }

  /** The parts of an event that a listener does not fold are those of the two snapshots. */
  ghost predicate SaysBoth(p: Snapshot, n: Snapshot, e: Event) {
    && (e.HomeSet? ==> n.home == Some(e.home))
    && (e.SensorHealthChange? ==>
          e.oldHealthy == HealthOf(SensorsIn(p), e.bit) && e.healthy == HealthOf(SensorsIn(n), e.bit))
  }

  lemma ScalarsSayBoth(p: Snapshot, n: Snapshot, e: Event)
    requires e in ScalarEdges(p, n)
    ensures SaysBoth(p, n, e)
  {
    assert e in ArmedEdges(p, n) || e in ModeEdges(p, n) || e in LandedEdges(p, n) || e in FixEdges(p, n)
      || e in HomeEdges(p, n);
  }

  lemma EventsSayBoth(p: Snapshot, n: Snapshot, e: Event)
    requires e in Diff(Some(p), n)
    ensures SaysBoth(p, n, e)
  {
    var pLive, nLive := Distinct(Live(p.components)), Distinct(Live(n.components));
    if e in ScalarEdges(p, n) {
      ScalarsSayBoth(p, n, e);
    } else if e in ConnectionEdges(p.connected, n.connected) {
    } else if e in Appeared(pLive, nLive) {
      OnlyComponentEvents(pLive, nLive);
    } else if e in Lost(pLive, nLive) {
      OnlyComponentEvents(nLive, pLive);
    } else {
      SensorEdgesSayBoth(Distinct(Bits(SensorsIn(p)) + Bits(SensorsIn(n))), SensorsIn(p), SensorsIn(n));
    }
  }

  // The whole run: the engine takes messages, the node compares each vehicle with its last snapshot

  datatype Step = Ingest(payload: Payload, now: int) | Emit(sysid: int, now: int)

  /** `views` is what a listener makes of the events, starting at the first snapshot of each vehicle. */
  datatype Watch = Watch(vehicles: map<int, Vehicle>, last: map<int, Snapshot>, views: map<int, View>)

  const Start := Watch(map[], map[], map[])

  function Next(w: Watch, modeName: ModeNames, staleMs: int, step: Step): Watch {
    match step
    case Ingest(p, now) => w.(vehicles := Ingested(w.vehicles, p, now))
    case Emit(id, now) =>
      if id !in w.vehicles then w
      else
        var n := SnapshotOf(w.vehicles[id], modeName, staleMs, now);
        var prev := if id in w.last then Some(w.last[id]) else None;
        w.(last := w.last[id := n],
           views := w.views[id := if id in w.views then Fold(w.views[id], Diff(prev, n)) else ViewOf(n)])
  }

  function Run(modeName: ModeNames, staleMs: int, steps: seq<Step>): Watch {
    if steps == [] then Start
    else Next(Run(modeName, staleMs, steps[..|steps| - 1]), modeName, staleMs, steps[|steps| - 1])
  }

  /** The record still holds everything that the snapshot showed as known. */
  predicate Remembers(v: Vehicle, s: Snapshot) {
    && (s.armed.Some? || s.mode.Some? ==> v.autopilot.Some?)
    && (s.fixType.Some? ==> v.fixType.Some?) && (s.home.Some? ==> v.home.Some?)
  }

  ghost predicate Faithful(w: Watch) {
    && w.views.Keys == w.last.Keys && w.last.Keys <= w.vehicles.Keys
    && forall id :: id in w.last ==> Remembers(w.vehicles[id], w.last[id]) && w.views[id] == ViewOf(w.last[id])
  }

  lemma NextIsFaithful(w: Watch, modeName: ModeNames, staleMs: int, step: Step)
    requires Faithful(w)
    ensures Faithful(Next(w, modeName, staleMs, step))
  {
    if step.Emit? && step.sysid in w.vehicles {
      var n := SnapshotOf(w.vehicles[step.sysid], modeName, staleMs, step.now);
      if step.sysid in w.last {
        DiffReplays(w.last[step.sysid], n);
      }
    }
  }

  /** After any run, for every vehicle that was ever shown, folding its events over its first snapshot gives
      the view of its latest one: no change is missed, however clock and snapshots fall. */
  lemma {:induction false} EventsReplayState(modeName: ModeNames, staleMs: int, steps: seq<Step>)
    ensures Faithful(Run(modeName, staleMs, steps))
  {
    if steps != [] {
      EventsReplayState(modeName, staleMs, steps[..|steps| - 1]);
      NextIsFaithful(Run(modeName, staleMs, steps[..|steps| - 1]), modeName, staleMs, steps[|steps| - 1]);
    }
  }

  /** A sensor that was healthy and is in no mask any more. */
  predicate HealthySensorVanished(p: Snapshot, n: Snapshot, bit: nat) {
    HealthOf(SensorsIn(p), bit) == Some(true) && HealthOf(SensorsIn(n), bit).None?
  }

  lemma {:induction false} SensorEdgesQuiet(bits: seq<nat>, prev: seq<Sensor>, next: seq<Sensor>)
    ensures SensorEdges(bits, prev, next) == [] <==>
      forall bit :: bit in bits ==> Silent(HealthOf(prev, bit), HealthOf(next, bit))
  {
    if bits != [] {
      var init, last := bits[..|bits| - 1], bits[|bits| - 1];
      SensorEdgesQuiet(init, prev, next);
      assert forall bit :: bit in bits <==> bit in init || bit == last;
      assert SensorEdges(bits, prev, next) == [] <==>
          SensorEdges(init, prev, next) == [] && Silent(HealthOf(prev, last), HealthOf(next, last));
    }
  }

  lemma {:induction false} AppearedQuiet(prev: seq<int>, next: seq<int>)
    requires forall x :: x in next ==> x in prev
    ensures Appeared(prev, next) == [] && Lost(next, prev) == []
  {
    if next != [] {
      AppearedQuiet(prev, next[..|next| - 1]);
    }
  }

  lemma ScalarsQuiet(p: Snapshot, n: Snapshot)
    requires Keeps(p, n)
    ensures ScalarEdges(p, n) == [] <==>
      p.armed == n.armed && p.mode == n.mode && p.landed == n.landed && p.fixType == n.fixType
        && p.home.Some? == n.home.Some?
  {
    assert |ScalarEdges(p, n)| ==
      |ArmedEdges(p, n)| + |ModeEdges(p, n)| + |LandedEdges(p, n)| + |FixEdges(p, n)| + |HomeEdges(p, n)|;
  }

  lemma SilentCases(before: Option<bool>, after: Option<bool>)
    ensures Silent(before, after) <==>
      (before == Some(false) <==> after == Some(false)) && !(before == Some(true) && after.None?)
  {
    assert before.None? || before == Some(true) || before == Some(false) by {
      assert before.Some? ==> before == Some(before.value) && (before.value == true || before.value == false);
    }
    assert after.None? || after == Some(true) || after == Some(false) by {
      assert after.Some? ==> after == Some(after.value) && (after.value == true || after.value == false);
    }
  }

  lemma HealthQuiet(p: Snapshot, n: Snapshot)
    ensures SensorEdges(Distinct(Bits(SensorsIn(p)) + Bits(SensorsIn(n))), SensorsIn(p), SensorsIn(n)) == [] <==>
      ViewOf(p).unhealthy == ViewOf(n).unhealthy && !exists bit :: HealthySensorVanished(p, n, bit)
  {
    var bits := Distinct(Bits(SensorsIn(p)) + Bits(SensorsIn(n)));
    SensorEdgesQuiet(bits, SensorsIn(p), SensorsIn(n));
    SensorsOutside(p, n, bits);
    ViewFacts(p);
    ViewFacts(n);
    forall bit: nat
      ensures (bit in bits ==> Silent(HealthOf(SensorsIn(p), bit), HealthOf(SensorsIn(n), bit))) <==>
        (bit in ViewOf(p).unhealthy <==> bit in ViewOf(n).unhealthy) && !HealthySensorVanished(p, n, bit)
    {
      SilentCases(HealthOf(SensorsIn(p), bit), HealthOf(SensorsIn(n), bit));
    }
  }

  /** There is no false alarm: as long as nothing known is lost, no event at all means the same view, and the
      same view gives no event, except for sensors that leave the masks while healthy. */
  lemma EventsMeanChange(p: Snapshot, n: Snapshot)
    requires Keeps(p, n)
    ensures Diff(Some(p), n) == [] <==> ViewOf(p) == ViewOf(n) && !exists bit :: HealthySensorVanished(p, n, bit)
  {
    var pLive, nLive := Distinct(Live(p.components)), Distinct(Live(n.components));
    DiffReplays(p, n);
    HealthQuiet(p, n);
    ScalarsQuiet(p, n);
    assert Diff(Some(p), n) == [] ==>
      SensorEdges(Distinct(Bits(SensorsIn(p)) + Bits(SensorsIn(n))), SensorsIn(p), SensorsIn(n)) == [];
    if ViewOf(p) == ViewOf(n) {
      ViewFacts(p);
      ViewFacts(n);
      AppearedQuiet(pLive, nLive);
      AppearedQuiet(nLive, pLive);
    }
  }

  // A snapshot against the heartbeats received

  predicate IsHeartbeatOf(p: Payload, id: int, compid: int) {
    p.message.Heartbeat? && p.compid == compid && p.sysid == Some(id) && IsVehicleId(p.sysid)
  }

  /** When the component was last heard. */
  function LatestHeartbeat(steps: seq<Step>, sysid: int, compid: int): Option<int> {
    if steps == [] then None
    else
      var last := steps[|steps| - 1];
      if last.Ingest? && IsHeartbeatOf(last.payload, sysid, compid) then Some(last.now)
      else LatestHeartbeat(steps[..|steps| - 1], sysid, compid)
  }

  function LastSeen(components: seq<Component>, compid: int): Option<int> {
    if components == [] then None
    else if components[0].compid == compid then Some(components[0].lastSeen)
    else LastSeen(components[1..], compid)
  }

  predicate OneEntryEach(components: seq<Component>) {
    components == [] || (LastSeen(components[1..], components[0].compid).None? && OneEntryEach(components[1..]))
  }

  lemma {:induction false} SeenFacts(components: seq<Component>, c: Component, compid: int)
    ensures LastSeen(Seen(components, c), compid) ==
      if compid == c.compid then Some(c.lastSeen) else LastSeen(components, compid)
  {
    if components != [] {
      SeenFacts(components[1..], c, compid);
    }
  }

  lemma {:induction false} SeenKeepsOneEntry(components: seq<Component>, c: Component)
    requires OneEntryEach(components)
    ensures OneEntryEach(Seen(components, c))
  {
    if components != [] && components[0].compid != c.compid {
      SeenKeepsOneEntry(components[1..], c);
      SeenFacts(components[1..], c, components[0].compid);
    }
  }

  lemma {:induction false} EntryIsLastSeen(components: seq<Component>, c: Component)
    requires OneEntryEach(components)
    ensures c in components <==> LastSeen(components, c.compid) == Some(c.lastSeen)
    ensures c in components ==> LastSeen(components, c.compid).Some?
  {
    if components != [] {
      EntryIsLastSeen(components[1..], c);
    }
  }

  predicate Fresh(heard: Option<int>, staleMs: int, now: int) {
    heard.Some? && now - heard.value <= staleMs
  }

  lemma LiveMeansFresh(v: Vehicle, modeName: ModeNames, staleMs: int, now: int, compid: int)
    requires OneEntryEach(v.components)
    ensures compid in ViewOf(SnapshotOf(v, modeName, staleMs, now)).live <==>
      Fresh(LastSeen(v.components, compid), staleMs, now)
  {
    var s := SnapshotOf(v, modeName, staleMs, now);
    var heard := LastSeen(v.components, compid);
    if compid in ViewOf(s).live {
      var c :| c in s.components && !c.stale && c.compid == compid;
      var i :| 0 <= i < |s.components| && s.components[i] == c;
      EntryIsLastSeen(v.components, v.components[i]);
    }
    if Fresh(heard, staleMs, now) {
      EntryIsLastSeen(v.components, Component(compid, heard.value));
      var i :| 0 <= i < |v.components| && v.components[i] == Component(compid, heard.value);
      assert s.components[i] == Presence(compid, false) && s.components[i] in s.components;
    }
  }

  lemma ListedMeansHeard(v: Vehicle, modeName: ModeNames, staleMs: int, now: int, compid: int)
    requires OneEntryEach(v.components)
    ensures (exists c :: c in SnapshotOf(v, modeName, staleMs, now).components && c.compid == compid) <==>
      LastSeen(v.components, compid).Some?
  {
    var s := SnapshotOf(v, modeName, staleMs, now);
    if c :| c in s.components && c.compid == compid {
      var i :| 0 <= i < |s.components| && s.components[i] == c;
      EntryIsLastSeen(v.components, v.components[i]);
    }
    if LastSeen(v.components, compid).Some? {
      var entry := Component(compid, LastSeen(v.components, compid).value);
      EntryIsLastSeen(v.components, entry);
      var i :| 0 <= i < |v.components| && v.components[i] == entry;
      assert s.components[i] in s.components && s.components[i].compid == compid;
    }
  }

  function Lookup(vehicles: map<int, Vehicle>, id: int): Vehicle {
    if id in vehicles then vehicles[id] else NewVehicle
  }

  /** What a record holds of the heartbeats so far. */
  ghost predicate Records(v: Vehicle, steps: seq<Step>, id: int) {
    && OneEntryEach(v.components)
    && (forall compid :: LastSeen(v.components, compid) == LatestHeartbeat(steps, id, compid))
    && LatestHeartbeat(steps, id, AUTOPILOT1) ==
       if v.autopilot.Some? then Some(v.autopilot.value.lastHeartbeat) else None
  }

  /** A message changes the record of its own vehicle only. */
  lemma LookupNext(vehicles: map<int, Vehicle>, p: Payload, now: int, id: int)
    ensures Lookup(Ingested(vehicles, p, now), id) ==
      if Tracked(p) && p.sysid == Some(id) then Update(Lookup(vehicles, id), p, now) else Lookup(vehicles, id)
  {
    assert Tracked(p) ==> (p.sysid == Some(id) <==> p.sysid.value == id);
  }

  lemma HeartbeatNext(steps: seq<Step>, p: Payload, now: int, id: int, compid: int)
    ensures LatestHeartbeat(steps + [Ingest(p, now)], id, compid) ==
      if IsHeartbeatOf(p, id, compid) then Some(now) else LatestHeartbeat(steps, id, compid)
  {
    assert (steps + [Ingest(p, now)])[..|steps|] == steps;
  }

  lemma HeartbeatRecords(v: Vehicle, steps: seq<Step>, p: Payload, now: int, id: int)
    requires Records(v, steps, id) && IsHeartbeatOf(p, id, p.compid)
    ensures Records(Update(v, p, now), steps + [Ingest(p, now)], id)
  {
    var longer := steps + [Ingest(p, now)];
    SeenKeepsOneEntry(v.components, Component(p.compid, now));
    forall compid
      ensures LastSeen(Seen(v.components, Component(p.compid, now)), compid) == LatestHeartbeat(longer, id, compid)
    {
      HeartbeatNext(steps, p, now, id, compid);
      SeenFacts(v.components, Component(p.compid, now), compid);
    }
    HeartbeatNext(steps, p, now, id, AUTOPILOT1);
  }

  lemma NoHeartbeatRecords(v: Vehicle, w: Vehicle, steps: seq<Step>, p: Payload, now: int, id: int)
    requires Records(v, steps, id) && !IsHeartbeatOf(p, id, p.compid)
    requires w.components == v.components && w.autopilot == v.autopilot
    ensures Records(w, steps + [Ingest(p, now)], id)
  {
    forall compid ensures LatestHeartbeat(steps + [Ingest(p, now)], id, compid) == LatestHeartbeat(steps, id, compid) {
      HeartbeatNext(steps, p, now, id, compid);
    }
  }

  lemma StepRecords(vehicles: map<int, Vehicle>, steps: seq<Step>, p: Payload, now: int, id: int)
    requires Records(Lookup(vehicles, id), steps, id)
    ensures Records(Lookup(Ingested(vehicles, p, now), id), steps + [Ingest(p, now)], id)
  {
    LookupNext(vehicles, p, now, id);
    if IsHeartbeatOf(p, id, p.compid) {
      HeartbeatRecords(Lookup(vehicles, id), steps, p, now, id);
    } else {
      NoHeartbeatRecords(Lookup(vehicles, id), Lookup(Ingested(vehicles, p, now), id), steps, p, now, id);
    }
  }

  lemma {:induction false} RunRecords(modeName: ModeNames, staleMs: int, steps: seq<Step>, id: int)
    ensures Records(Lookup(Run(modeName, staleMs, steps).vehicles, id), steps, id)
  {
    if steps != [] {
      var init, last := steps[..|steps| - 1], steps[|steps| - 1];
      RunRecords(modeName, staleMs, init, id);
      assert steps == init + [last];
      if last.Ingest? {
        StepRecords(Run(modeName, staleMs, init).vehicles, init, last.payload, last.now, id);
      }
    }
  }

  /** A snapshot shows a component as live, and the vehicle as connected, exactly when the last heartbeat
      received from the component, or from the autopilot, is fresh. */
  lemma SnapshotShowsFreshHeartbeats(
      modeName: ModeNames, staleMs: int, steps: seq<Step>, id: int, now: int, compid: int)
    requires id in Run(modeName, staleMs, steps).vehicles
    ensures var s := SnapshotOf(Run(modeName, staleMs, steps).vehicles[id], modeName, staleMs, now);
      && (s.connected <==> Fresh(LatestHeartbeat(steps, id, AUTOPILOT1), staleMs, now))
      && (compid in ViewOf(s).live <==> Fresh(LatestHeartbeat(steps, id, compid), staleMs, now))
      && ((exists c :: c in s.components && c.compid == compid) <==> LatestHeartbeat(steps, id, compid).Some?)
  {
    RunRecords(modeName, staleMs, steps, id);
    LiveMeansFresh(Run(modeName, staleMs, steps).vehicles[id], modeName, staleMs, now, compid);
    ListedMeansHeard(Run(modeName, staleMs, steps).vehicles[id], modeName, staleMs, now, compid);
  }

  /** The message counts for the vehicle: a heartbeat or a status text from any of its components, or one of the tracked
      sections from its autopilot. */
  predicate CountsFor(p: Payload, id: int) {
    && p.sysid == Some(id) && 0 < id < 256
    && match p.message
       case Heartbeat(_, _, _, _) => true
       case StatusText => true
       case Unrelated => false
       case _ => p.compid == 1
  }

  /** Exactly the vehicles are known from which a message that counts was received. */
  lemma {:induction false} KnownIffHeard(modeName: ModeNames, staleMs: int, steps: seq<Step>, id: int)
    ensures id in Run(modeName, staleMs, steps).vehicles <==>
      exists k :: 0 <= k < |steps| && steps[k].Ingest? && CountsFor(steps[k].payload, id)
  {
    if steps != [] {
      var init, last := steps[..|steps| - 1], steps[|steps| - 1];
      KnownIffHeard(modeName, staleMs, init, id);
      assert forall k :: 0 <= k < |init| ==> init[k] == steps[k];
      if last.Ingest? {
        assert id in Ingested(Run(modeName, staleMs, init).vehicles, last.payload, last.now) <==>
            id in Run(modeName, staleMs, init).vehicles || CountsFor(last.payload, id);
      }
      if k :| 0 <= k < |steps| && steps[k].Ingest? && CountsFor(steps[k].payload, id) {
        assert k < |init| ==> init[k].Ingest? && CountsFor(init[k].payload, id);
      }
    }
  }

  // A snapshot against the other messages received

  predicate IsAutopilotOf(p: Payload, id: int) {
    p.sysid == Some(id) && IsVehicleId(p.sysid) && p.compid == AUTOPILOT1
  }

  /** What the autopilot last said about `pick`. */
  function Latest<T>(steps: seq<Step>, id: int, pick: Message -> Option<T>): Option<T> {
    if steps == [] then None
    else
      var last := steps[|steps| - 1];
      if last.Ingest? && IsAutopilotOf(last.payload, id) && pick(last.payload.message).Some?
      then pick(last.payload.message)
      else Latest(steps[..|steps| - 1], id, pick)
  }

  function PickFix(): Message -> Option<int> {
    (m: Message) => if m.GpsRawInt? then Some(m.fixType) else None
  }

  function PickHome(): Message -> Option<Home> {
    (m: Message) => if m.HomePosition? then Some(Home(m.lat, m.lon)) else None
  }

  function PickLanded(): Message -> Option<int> {
    (m: Message) => if m.ExtendedSysState? then Some(m.landedState) else None
  }

  function PickBaseMode(): Message -> Option<nat> {
    (m: Message) => if m.Heartbeat? then Some(m.baseMode) else None
  }

  /** What a heartbeat says of the mode. */
  datatype ModeReport = ModeReport(kind: int, firmware: int, customMode: int)

  function PickMode(): Message -> Option<ModeReport> {
    (m: Message) => if m.Heartbeat? then Some(ModeReport(m.kind, m.firmware, m.customMode)) else None
  }

  function ModeOf(v: Vehicle): Option<ModeReport> {
    if v.autopilot.None? then None
    else Some(ModeReport(v.autopilot.value.kind, v.autopilot.value.firmware, v.autopilot.value.customMode))
  }

  /** The mode shown for a report: by its readable name, or else by its number. */
  predicate IsModeOf(modeName: ModeNames, mode: Mode, r: ModeReport) {
    match mode
    case Named(name) => modeName(r.kind, r.firmware, r.customMode) == Some(name)
    case Numbered(number) => modeName(r.kind, r.firmware, r.customMode).None? && number == r.customMode
  }

  function PickHealth(): Message -> Option<Health> {
    (m: Message) => if m.SysStatus? then Some(Health(Uint32(m.present), Uint32(m.enabled), Uint32(m.health))) else None
  }

  function BaseModeOf(v: Vehicle): Option<nat> {
    if v.autopilot.Some? then Some(v.autopilot.value.baseMode) else None
  }

  /** A record holds the latest of each kind of message. */
  ghost predicate HoldsLatest(v: Vehicle, steps: seq<Step>, id: int) {
    && v.fixType == Latest(steps, id, PickFix()) && v.home == Latest(steps, id, PickHome())
    && v.landed == Latest(steps, id, PickLanded()) && v.health == Latest(steps, id, PickHealth())
    && BaseModeOf(v) == Latest(steps, id, PickBaseMode()) && ModeOf(v) == Latest(steps, id, PickMode())
  }

  lemma LatestNext<T>(steps: seq<Step>, p: Payload, now: int, id: int, pick: Message -> Option<T>)
    ensures Latest(steps + [Ingest(p, now)], id, pick) ==
      if IsAutopilotOf(p, id) && pick(p.message).Some? then pick(p.message) else Latest(steps, id, pick)
  {
    assert (steps + [Ingest(p, now)])[..|steps|] == steps;
  }

  /** `read` is the part of a record that a tracked message sets if the autopilot's `pick` has something to say. */
  ghost predicate Mirrors<T>(read: Vehicle -> Option<T>, pick: Message -> Option<T>) {
    && read(NewVehicle) == None && pick(Unrelated) == None
    && forall v, p, now :: Tracked(p) ==>
         read(Update(v, p, now)) == if p.compid == AUTOPILOT1 && pick(p.message).Some? then pick(p.message) else read(v)
  }

  /** Such a part always holds what the autopilot said last. */
  lemma {:induction false} PartIsLatest<T>(
      modeName: ModeNames, staleMs: int, steps: seq<Step>, id: int,
      read: Vehicle -> Option<T>, pick: Message -> Option<T>)
    requires Mirrors(read, pick)
    ensures read(Lookup(Run(modeName, staleMs, steps).vehicles, id)) == Latest(steps, id, pick)
  {
    if steps != [] {
      var init, last := steps[..|steps| - 1], steps[|steps| - 1];
      PartIsLatest(modeName, staleMs, init, id, read, pick);
      assert steps == init + [last];
      if last.Ingest? {
        LookupNext(Run(modeName, staleMs, init).vehicles, last.payload, last.now, id);
        LatestNext(init, last.payload, last.now, id, pick);
      }
    }
  }

  lemma RunHoldsLatest(modeName: ModeNames, staleMs: int, steps: seq<Step>, id: int)
    ensures HoldsLatest(Lookup(Run(modeName, staleMs, steps).vehicles, id), steps, id)
  {
    var v := Lookup(Run(modeName, staleMs, steps).vehicles, id);
    assert v.fixType == Latest(steps, id, PickFix()) by {
      PartIsLatest(modeName, staleMs, steps, id, (v: Vehicle) => v.fixType, PickFix());
    }
    assert v.home == Latest(steps, id, PickHome()) by {
      PartIsLatest(modeName, staleMs, steps, id, (v: Vehicle) => v.home, PickHome());
    }
    assert v.landed == Latest(steps, id, PickLanded()) by {
      PartIsLatest(modeName, staleMs, steps, id, (v: Vehicle) => v.landed, PickLanded());
    }
    assert v.health == Latest(steps, id, PickHealth()) by {
      PartIsLatest(modeName, staleMs, steps, id, (v: Vehicle) => v.health, PickHealth());
    }
    assert BaseModeOf(v) == Latest(steps, id, PickBaseMode()) by {
      PartIsLatest(modeName, staleMs, steps, id, (v: Vehicle) => BaseModeOf(v), PickBaseMode());
    }
    assert ModeOf(v) == Latest(steps, id, PickMode()) by {
      PartIsLatest(modeName, staleMs, steps, id, (v: Vehicle) => ModeOf(v), PickMode());
    }
  }

  lemma {:induction false} SensorsAreTheBits(h: Health, limit: nat, bit: nat)
    ensures HealthOf(Sensors(h, limit), bit) ==
      if bit < limit && Mentions(h, bit) then Some(HasBit(h.healthy, bit)) else None
  {
    if limit > 0 {
      SensorsAreTheBits(h, limit - 1, bit);
      var last := limit - 1;
      var init := Sensors(h, last);
      var x := Sensor(last, HasBit(h.present, last), HasBit(h.enabled, last), HasBit(h.healthy, last));
      if Mentions(h, last) {
        assert Sensors(h, limit) == init + [x] && (init + [x])[..|init|] == init;
      } else {
        assert Sensors(h, limit) == init;
      }
    }
  }

  /** The bits of a mask are what `HasBit` says: they add up to it. */
  function BitSum(mask: nat, n: nat): nat {
    if n == 0 then 0 else BitSum(mask, n - 1) + if HasBit(mask, n - 1) then Pow2(n - 1) else 0
  }

  lemma Quotient(n: nat, d: nat, q: nat, r: nat)
    requires d > 0 && n == q * d + r && r < d
    ensures n / d == q && n % d == r
  {
    var a := n / d;
    assert n == a * d + n % d;
    if a < q {
      Scaled(a + 1, q, d);
    } else if a > q {
      Scaled(q + 1, a, d);
    }
  }

  lemma Scaled(a: nat, b: nat, d: nat)
    requires a <= b
    ensures a * d <= b * d
  {
  }

  lemma HalfOf(half: nat, odd: nat, p: nat)
    ensures (2 * half + odd) * p == half * (2 * p) + odd * p
  {
  }

  /** The remainder modulo twice a power has the bit of that power, and else the remainder modulo it. */
  lemma NextBit(mask: nat, p: nat)
    requires p > 0
    ensures mask % (2 * p) == mask % p + if mask / p % 2 == 1 then p else 0
  {
    var q, r := mask / p, mask % p;
    assert mask == q * p + r;
    var half, odd := q / 2, q % 2;
    HalfOf(half, odd, p);
    if odd == 0 {
      Quotient(mask, 2 * p, half, r);
    } else {
      Quotient(mask, 2 * p, half, p + r);
    }
  }

  lemma {:induction false} BitsMakeMask(mask: nat, n: nat)
    ensures BitSum(mask, n) == mask % Pow2(n)
  {
    if n > 0 {
      BitsMakeMask(mask, n - 1);
      NextBit(mask, Pow2(n - 1));
    }
  }

  predicate Ascending(sensors: seq<Sensor>) {
    forall i, j :: 0 <= i < j < |sensors| ==> sensors[i].bit < sensors[j].bit
  }

  /** Every listed sensor says which of the masks it is in, and the sensors come in ascending order. */
  lemma {:induction false} SensorsSayTheirMasks(h: Health, limit: nat)
    ensures forall x :: x in Sensors(h, limit) ==>
      && x.bit < limit && (x.present <==> HasBit(h.present, x.bit)) && (x.enabled <==> HasBit(h.enabled, x.bit))
      && (x.healthy <==> HasBit(h.healthy, x.bit)) && (x.present || x.enabled || x.healthy)
    ensures Ascending(Sensors(h, limit))
  {
    if limit > 0 {
      SensorsSayTheirMasks(h, limit - 1);
      var lower := Sensors(h, limit - 1);
      assert forall i :: 0 <= i < |lower| ==> lower[i] in lower;
    }
  }

  /** The landed state that stands for a number of the enumeration. */
  predicate IsLandedState(landed: Landed, state: Option<int>) {
    match landed
    case OnGround => state == Some(1)
    case InAir => state == Some(2)
    case Takeoff => state == Some(3)
    case Landing => state == Some(4)
    case Unknown => state.None? || state.value !in {1, 2, 3, 4}
  }

  /** Fix, home, landed state, armed flag, mode and sensors of a snapshot are those of the autopilot's latest message
      of the kind, and unknown before the first one; other components' messages have no say. */
  lemma SnapshotShowsLatestMessages(modeName: ModeNames, staleMs: int, steps: seq<Step>, id: int, now: int)
    requires id in Run(modeName, staleMs, steps).vehicles
    ensures var s := SnapshotOf(Run(modeName, staleMs, steps).vehicles[id], modeName, staleMs, now);
      && s.fixType == Latest(steps, id, PickFix()) && s.home == Latest(steps, id, PickHome())
      && IsLandedState(s.landed, Latest(steps, id, PickLanded()))
      && (s.armed.Some? <==> Latest(steps, id, PickBaseMode()).Some?)
      && (s.armed.Some? ==> (s.armed.value <==> HasBit(Latest(steps, id, PickBaseMode()).value, 7)))
      && (s.mode.Some? <==> Latest(steps, id, PickMode()).Some?)
      && (s.mode.Some? ==> IsModeOf(modeName, s.mode.value, Latest(steps, id, PickMode()).value))
      && forall bit :: HealthOf(SensorsIn(s), bit) ==
           var h := Latest(steps, id, PickHealth());
           if h.Some? && bit < 32 && Mentions(h.value, bit) then Some(HasBit(h.value.healthy, bit)) else None
  {
    RunHoldsLatest(modeName, staleMs, steps, id);
    var h := Latest(steps, id, PickHealth());
    if h.Some? {
      forall bit {
        SensorsAreTheBits(h.value, 32, bit);
      }
    }
  }

  // The engine

  class VehicleStateEngine {
    var vehicles: map<int, Vehicle>
    const staleMs: int
    const modeName: ModeNames

    constructor (staleMs: int, modeName: ModeNames)
      ensures vehicles == map[] && this.modeName == modeName
      ensures this.staleMs == if staleMs == 0 then DEFAULT_STALE_MS else staleMs
    {
      this.staleMs := if staleMs == 0 then DEFAULT_STALE_MS else staleMs;
      this.modeName := modeName;
      vehicles := map[];
    }

    method IngestPayload(p: Payload, now: int) returns (id: Option<int>)
      modifies this`vehicles
      ensures vehicles == Ingested(old(vehicles), p, now)
      ensures id == if Tracked(p) then p.sysid else None
    {
      if p.sysid.None? || p.sysid.value < 1 || p.sysid.value > 255 {
        return None;
      }
      var owned := !p.message.Unrelated? && p.compid == AUTOPILOT1;
      if !p.message.Heartbeat? && !p.message.StatusText? && !owned {
        return None;
      }
      var sysid := p.sysid.value;
      if sysid !in vehicles {
        vehicles := vehicles[sysid := NewVehicle];
      }
      vehicles := vehicles[sysid := Update(vehicles[sysid], p, now)];
      return Some(sysid);
    }

    method TakeSnapshot(sysid: int, now: int) returns (s: Option<Snapshot>)
      ensures s == if sysid in vehicles then Some(SnapshotOf(vehicles[sysid], modeName, staleMs, now)) else None
    {
      if sysid !in vehicles {
        return None;
      }
      var v := vehicles[sysid];
      var connected, armed, mode := false, None, None;
      if v.autopilot.Some? {
        var ap := v.autopilot.value;
        var name := modeName(ap.kind, ap.firmware, ap.customMode);
        connected, armed := now - ap.lastHeartbeat <= staleMs, Some(HasBit(ap.baseMode, 7));
        mode := Some(if name.Some? then Named(name.value) else Numbered(ap.customMode));
      }
      var components: seq<Presence> := [];
      for i := 0 to |v.components|
        invariant |components| == i
        invariant forall k :: 0 <= k < i ==>
          components[k] == Presence(v.components[k].compid, now - v.components[k].lastSeen > staleMs)
      {
        var c := v.components[i];
        components := components + [Presence(c.compid, now - c.lastSeen > staleMs)];
      }
      assert components == SnapshotOf(v, modeName, staleMs, now).components;
      var health := None;
      if v.health.Some? {
        var sensors := HealthSection(v.health.value);
        health := Some(sensors);
      }
      return Some(Snapshot(connected, armed, mode, LandedOf(v.landed), v.fixType, v.home, components, health));
    }
  }

  method HealthSection(h: Health) returns (sensors: seq<Sensor>)
    ensures sensors == Sensors(h, 32)
  {
    sensors := [];
    for bit := 0 to 32
      invariant sensors == Sensors(h, bit)
    {
      var present, enabled, healthy := HasBit(h.present, bit), HasBit(h.enabled, bit), HasBit(h.healthy, bit);
      if present || enabled || healthy {
        sensors := sensors + [Sensor(bit, present, enabled, healthy)];
      }
    }
  }

  method DiffVehicleState(prev: Option<Snapshot>, n: Snapshot) returns (events: seq<Event>)
    ensures events == Diff(prev, n)
  {
    var wasConnected := prev.Some? && prev.value.connected;
    events := ConnectionEdges(wasConnected, n.connected);
    if prev.None? {
      return;
    }
    var p := prev.value;
    events := events + ScalarEdges(p, n);
    events := DiffComponents(events, Distinct(Live(p.components)), Distinct(Live(n.components)));
    events := DiffSensors(events, SensorsIn(p), SensorsIn(n));
  }

  method DiffComponents(events: seq<Event>, pLive: seq<int>, nLive: seq<int>) returns (all: seq<Event>)
    ensures all == events + Appeared(pLive, nLive) + Lost(pLive, nLive)
  {
    all := events;
    for i := 0 to |nLive|
      invariant all == events + Appeared(pLive, nLive[..i])
    {
      assert nLive[..i + 1][..i] == nLive[..i];
      if nLive[i] !in pLive {
        all := all + [ComponentAppeared(nLive[i])];
      }
    }
    assert nLive[..|nLive|] == nLive;
    for i := 0 to |pLive|
      invariant all == events + Appeared(pLive, nLive) + Lost(pLive[..i], nLive)
    {
      assert pLive[..i + 1][..i] == pLive[..i];
      if pLive[i] !in nLive {
        all := all + [ComponentLost(pLive[i])];
      }
    }
    assert pLive[..|pLive|] == pLive;
  }

  method DiffSensors(events: seq<Event>, prev: seq<Sensor>, next: seq<Sensor>) returns (all: seq<Event>)
    ensures all == events + SensorEdges(Distinct(Bits(prev) + Bits(next)), prev, next)
  {
    all := events;
    var bits := Distinct(Bits(prev) + Bits(next));
    for i := 0 to |bits|
      invariant all == events + SensorEdges(bits[..i], prev, next)
    {
      assert bits[..i + 1][..i] == bits[..i];
      var before, after := HealthOf(prev, bits[i]), HealthOf(next, bits[i]);
      if before == after || (before.None? && after == Some(true)) {
        continue;
      }
      all := all + [SensorHealthChange(bits[i], before, after)];
    }
    assert bits[..|bits|] == bits;
  }
}
