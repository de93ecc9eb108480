/** What the mission workflows share: screening of inbound packets, and the item fields that go over
    the wire. */
module MissionWorkflows {
  import opened Wrappers

  const MISSION_ACCEPTED := 0
  const MISSION_TYPE_MISSION := 0
  const MISSION_TYPE_ALL := 255

  /** Whom the workflow talks to and as whom; an absent component is one that is not a number. */
  datatype Address = Address(
    targetSystem: int, targetComponent: Option<int>, sourceSystem: Option<int>, sourceComponent: Option<int>,
    missionType: int)

  /** The routing part of a decoded packet; `mavlink1` is the 0xFE start marker. */
  datatype Header = Header(
    sysid: int, compid: Option<int>, targetSystem: Option<int>, targetComponent: Option<int>, missionType: int,
    mavlink1: bool)

  datatype Screening = ForUs | Ignored | NeedsMavlink2

  predicate MatchesTarget(a: Address, h: Header) {
    h.sysid == a.targetSystem
  }

  predicate MatchesComponent(a: Address, h: Header) {
    a.targetComponent == Some(0) || a.targetComponent.None? || h.compid.None? || h.compid == a.targetComponent
  }

  /** An absent field, an unknown identity of ours, or 0 all pass. */
  predicate Names(field: Option<int>, own: Option<int>) {
    own.None? || field.None? || field == Some(0) || field == own
  }

  predicate AddressedToUs(a: Address, h: Header) {
    Names(h.targetSystem, a.sourceSystem) && Names(h.targetComponent, a.sourceComponent)
  }

  function Screen(a: Address, h: Header): Screening {
    if !MatchesTarget(a, h) || !MatchesComponent(a, h) || !AddressedToUs(a, h) then Ignored
    else if h.missionType == a.missionType then ForUs
    else if a.missionType != MISSION_TYPE_MISSION && h.missionType == MISSION_TYPE_MISSION && h.mavlink1
      then NeedsMavlink2
    else Ignored
  }

  /** The header of a packet from the vehicle that the workflow takes. */
  function ForUsHeader(a: Address): (h: Header)
    ensures Screen(a, h) == ForUs
  {
    Header(a.targetSystem, a.targetComponent, None, None, a.missionType, false)
  }

  /** The packet comes from another system, or from another component of it. */
  predicate FromElsewhere(a: Address, h: Header) {
    h.sysid != a.targetSystem
    || (a.targetComponent.Some? && a.targetComponent != Some(0) && h.compid.Some? && h.compid != a.targetComponent)
  }

  /** The packet names another recipient than us. */
  predicate ForSomeoneElse(a: Address, h: Header) {
    || (a.sourceSystem.Some? && h.targetSystem.Some? && h.targetSystem.value !in {0, a.sourceSystem.value})
    || (a.sourceComponent.Some? && h.targetComponent.Some? && h.targetComponent.value !in {0, a.sourceComponent.value})
  }

  /** A packet is taken exactly if it comes from the vehicle, is not for someone else and is about our mission type.
      Of the others only one kind is reported: a MAVLink 1 packet, which can only name the plain type, when we asked
      for another. */
  lemma ScreeningTells(a: Address, h: Header)
    ensures Screen(a, h) == ForUs <==> !FromElsewhere(a, h) && !ForSomeoneElse(a, h) && h.missionType == a.missionType
    ensures Screen(a, h) == NeedsMavlink2 <==>
      && !FromElsewhere(a, h) && !ForSomeoneElse(a, h)
      && h.mavlink1 && h.missionType == MISSION_TYPE_MISSION != a.missionType
  {
  }

  // Mission items

  /** Which message carries an item: MISSION_ITEM_INT has x and y in whole units of 1e-7 degrees,
      MISSION_ITEM in degrees. */
  datatype Wire = ItemInt | ItemFloat

  /** A parameter or coordinate: NaN is a value of its own, "keep the current one", and must survive. */
  datatype Value = Finite(number: real) | NaN

  /** A mission item as a flow hands it over; what is absent gets a default.  A download records the
      sequence number; an upload goes by the position instead.  `x` and `y` are raw wire
      values, `lat` and `lon` plain degrees. */
  datatype Item = Item(
    seqNo: Option<nat>, command: int, frame: Option<int>, current: Option<int>, autocontinue: Option<int>,
    param1: Option<Value>, param2: Option<Value>, param3: Option<Value>, param4: Option<Value>,
    x: Option<Value>, y: Option<Value>, lat: Option<Value>, lon: Option<Value>, z: Option<real>, alt: Option<real>,
    wire: Option<Wire>)

  /** The fields of one MISSION_ITEM(_INT) on the wire. */
  datatype WireItem = WireItem(
    seqNo: nat, command: int, frame: int, current: int, autocontinue: int,
    param1: Value, param2: Value, param3: Value, param4: Value, x: Value, y: Value, z: real)

  const FRAME_GLOBAL_RELATIVE_ALT := 3
  const FRAME_GLOBAL_RELATIVE_ALT_INT := 6
  const DEG_E7: real := 10000000.0

  /** `Math.round`: halves go up. */
  function Round(r: real): real {
    (r + 0.5).Floor as real
  }

  function ToWire(wire: Wire, degrees: Value): Value {
    if wire.ItemInt? && degrees.Finite? then Finite(Round(degrees.number * DEG_E7)) else degrees
  }

  function FromWire(wire: Wire, value: Value): Value {
    if wire.ItemInt? && value.Finite? then Finite(value.number / DEG_E7) else value
  }

  /** Raw values are rescaled when they were authored for the other message. */
  function Coordinate(raw: Option<Value>, degrees: Option<Value>, authored: Wire, wire: Wire): Value {
    if raw.Some? then (if authored == wire then raw.value else ToWire(wire, FromWire(authored, raw.value)))
    else if degrees.Some? then ToWire(wire, degrees.value)
    else Finite(0.0)
  }

  function Or<T>(value: Option<T>, dflt: T): T {
    if value.Some? then value.value else dflt
  }

  function BuildItemFields(item: Item, seqNo: nat, wire: Wire, preferred: Wire): WireItem {
    var authored := Or(item.wire, preferred);
    WireItem(
      seqNo, item.command,
      Or(item.frame, if wire.ItemInt? then FRAME_GLOBAL_RELATIVE_ALT_INT else FRAME_GLOBAL_RELATIVE_ALT),
      Or(item.current, if seqNo == 0 then 1 else 0), Or(item.autocontinue, 1),
      Or(item.param1, Finite(0.0)), Or(item.param2, Finite(0.0)),
      Or(item.param3, Finite(0.0)), Or(item.param4, Finite(0.0)),
      Coordinate(item.x, item.lat, authored, wire), Coordinate(item.y, item.lon, authored, wire),
      Or(item.z, Or(item.alt, 0.0)))
  }

  function ExtractItem(f: WireItem, wire: Wire, globalFrames: set<int>): Item {
    var global := f.frame in globalFrames;
    Item(Some(f.seqNo), f.command, Some(f.frame), Some(f.current), Some(f.autocontinue),
         Some(f.param1), Some(f.param2), Some(f.param3), Some(f.param4), Some(f.x), Some(f.y),
         if global then Some(FromWire(wire, f.x)) else None, if global then Some(FromWire(wire, f.y)) else None,
         Some(f.z), None, Some(wire))
  }

  /** Two coordinates are the same, to half a unit of 1e-7 degrees; NaN is only like itself. */
  predicate Near(a: Value, b: Value) {
    (a.NaN? && b.NaN?) || (a.Finite? && b.Finite? && -0.5 <= (a.number - b.number) * DEG_E7 <= 0.5)
  }

  predicate Integral(v: Value) {
    v.NaN? || v.number == v.number.Floor as real
  }

  lemma RoundIsNear(r: real)
    ensures -0.5 <= Round(r) - r <= 0.5
  {
  }

  lemma RoundKeepsWhole(k: int)
    ensures Round(k as real) == k as real
  {
    var m := (k as real + 0.5).Floor;
    var apart := m - k;
    assert apart as real == m as real - k as real;
    assert -0.5 < apart as real <= 0.5;
    assert apart == 0;
  }

  lemma ScaledBack(n: real)
    ensures n / DEG_E7 * DEG_E7 == n
  {
  }

  lemma UnitsApart(degrees: real)
    ensures (Round(degrees * DEG_E7) / DEG_E7 - degrees) * DEG_E7 == Round(degrees * DEG_E7) - degrees * DEG_E7
  {
    var n := Round(degrees * DEG_E7);
    ScaledBack(n);
    assert (n / DEG_E7 - degrees) * DEG_E7 == n / DEG_E7 * DEG_E7 - degrees * DEG_E7;
  }

  /** Degrees survive MISSION_ITEM exactly and MISSION_ITEM_INT to half a unit; whole units survive both ways. */
  lemma WireRoundTrip(wire: Wire, value: Value)
    ensures Near(FromWire(wire, ToWire(wire, value)), value) && (wire.ItemFloat? ==> ToWire(wire, value) == value)
    ensures Integral(value) ==> ToWire(wire, FromWire(wire, value)) == value
  {
    if value.Finite? {
      RoundIsNear(value.number * DEG_E7);
      UnitsApart(value.number);
      RoundKeepsWhole(value.number.Floor);
      ScaledBack(value.number);
    }
  }

  /** Where an item points, in degrees: its raw value read in the convention it was authored in, or else
      the plain degrees, or else 0. */
  function AuthoredDegrees(raw: Option<Value>, degrees: Option<Value>, authored: Wire): Value {
    if raw.Some? then FromWire(authored, raw.value) else Or(degrees, Finite(0.0))
  }

  /** The coordinate on the wire names the authored place: to half a unit in MISSION_ITEM_INT, exactly in
      MISSION_ITEM, and exactly in both when the raw value was written for that message. */
  predicate Places(f: Value, wire: Wire, raw: Option<Value>, degrees: Option<Value>, authored: Wire) {
    && Near(FromWire(wire, f), AuthoredDegrees(raw, degrees, authored))
    && (wire.ItemFloat? ==> f == AuthoredDegrees(raw, degrees, authored))
    && (raw.Some? && authored == wire ==> f == raw.value)
  }

  /** What the vehicle reads from the message: the authored place, and each other field as the item gives it
      or its documented default. */
  predicate Commands(item: Item, seqNo: nat, preferred: Wire, wire: Wire, f: WireItem) {
    && f.seqNo == seqNo && f.command == item.command
    && Places(f.x, wire, item.x, item.lat, Or(item.wire, preferred))
    && Places(f.y, wire, item.y, item.lon, Or(item.wire, preferred))
    && (if item.frame.Some? then f.frame == item.frame.value
        else f.frame == if wire.ItemInt? then FRAME_GLOBAL_RELATIVE_ALT_INT else FRAME_GLOBAL_RELATIVE_ALT)
    && (if item.current.Some? then f.current == item.current.value
        else (f.current == 1 <==> seqNo == 0) && f.current in {0, 1})
    && f.autocontinue == Or(item.autocontinue, 1)
    && f.param1 == Or(item.param1, Finite(0.0)) && f.param2 == Or(item.param2, Finite(0.0))
    && f.param3 == Or(item.param3, Finite(0.0)) && f.param4 == Or(item.param4, Finite(0.0))
    && (item.z.Some? ==> f.z == item.z.value) && (item.z.None? ==> f.z == Or(item.alt, 0.0))
  }

  lemma CoordinateIsAuthored(raw: Option<Value>, degrees: Option<Value>, authored: Wire, wire: Wire)
    ensures Places(Coordinate(raw, degrees, authored, wire), wire, raw, degrees, authored)
  {
    WireRoundTrip(wire, AuthoredDegrees(raw, degrees, authored));
  }

  /** Whichever message the vehicle asks for, it is commanded what the item says. */
  lemma UploadCommandsTheSamePoint(item: Item, seqNo: nat, wire: Wire, preferred: Wire)
    ensures Commands(item, seqNo, preferred, wire, BuildItemFields(item, seqNo, wire, preferred))
  {
    CoordinateIsAuthored(item.x, item.lat, Or(item.wire, preferred), wire);
    CoordinateIsAuthored(item.y, item.lon, Or(item.wire, preferred), wire);
  }

  /** The wire fields that a downloaded item repeats. */
  function RawFields(d: Item): Option<WireItem> {
    if d.seqNo.None? || d.frame.None? || d.current.None? || d.autocontinue.None? || d.param1.None? || d.param2.None?
       || d.param3.None? || d.param4.None? || d.x.None? || d.y.None? || d.z.None?
    then None
    else Some(WireItem(
      d.seqNo.value, d.command, d.frame.value, d.current.value, d.autocontinue.value,
      d.param1.value, d.param2.value, d.param3.value, d.param4.value, d.x.value, d.y.value, d.z.value))
  }

  /** The downloaded item `d` shows what the authored item says: in its raw fields, read by the message it names, and
      for a global frame in plain degrees, `lat` for x and `lon` for y. */
  ghost predicate Shows(item: Item, seqNo: nat, preferred: Wire, globalFrames: set<int>, d: Item) {
    && d.wire.Some? && RawFields(d).Some?
    && Commands(item, seqNo, preferred, d.wire.value, RawFields(d).value)
    && (if d.frame.value in globalFrames then
          && d.lat.Some? && Near(d.lat.value, AuthoredDegrees(item.x, item.lat, Or(item.wire, preferred)))
          && d.lon.Some? && Near(d.lon.value, AuthoredDegrees(item.y, item.lon, Or(item.wire, preferred)))
        else d.lat.None? && d.lon.None?)
  }

  /** An item that was uploaded in either message and is downloaded from it shows what was authored. */
  lemma DownloadShowsWhatWasAuthored(item: Item, seqNo: nat, wire: Wire, preferred: Wire, globalFrames: set<int>)
    ensures Shows(item, seqNo, preferred, globalFrames,
      ExtractItem(BuildItemFields(item, seqNo, wire, preferred), wire, globalFrames))
  {
    UploadCommandsTheSamePoint(item, seqNo, wire, preferred);
  }

  /** What a downloaded item becomes when it is uploaded again. */
  function Reuploaded(fields: WireItem, from: Wire, to: Wire, preferred: Wire, globalFrames: set<int>): WireItem {
    BuildItemFields(ExtractItem(fields, from, globalFrames), fields.seqNo, to, preferred)
  }

  /** A downloaded item re-uploads to the fields it came from when asked for in the same message, and to the
      same place in the other, whatever the profile prefers.  A MISSION_ITEM_INT, whose coordinates are whole
      units, also comes back unchanged from a detour through MISSION_ITEM. */
  lemma DownloadUploadRoundTrip(fields: WireItem, from: Wire, to: Wire, preferred: Wire, globalFrames: set<int>)
    ensures var again := Reuploaded(fields, from, to, preferred, globalFrames);
      && (from == to ==> again == fields)
      && again == fields.(x := again.x, y := again.y)
      && Near(FromWire(to, again.x), FromWire(from, fields.x)) && Near(FromWire(to, again.y), FromWire(from, fields.y))
      && (to.ItemFloat? ==> again.x == FromWire(from, fields.x) && again.y == FromWire(from, fields.y))
    ensures from.ItemInt? && Integral(fields.x) && Integral(fields.y) ==>
      Reuploaded(Reuploaded(fields, from, to, preferred, globalFrames), to, from, preferred, globalFrames) == fields
  {
    UploadCommandsTheSamePoint(ExtractItem(fields, from, globalFrames), fields.seqNo, to, preferred);
    WireRoundTrip(ItemInt, fields.x);
    WireRoundTrip(ItemInt, fields.y);
  }
}
