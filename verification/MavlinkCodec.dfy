/** Frames patched in place after serialization: the one-byte minimum payload and exact float bit patterns.

    The X.25 checksum is a parameter: any function of the covered bytes and the message's CRC extra. */
module MavlinkCodec {
  import opened Wrappers

  type Byte = b: int | 0 <= b < 256
  type Word16 = w: int | 0 <= w < 0x1_0000
  type Word32 = w: int | 0 <= w < 0x1_0000_0000

  type Checksum = (seq<Byte>, Byte) -> Word16

  /** Bytes before the payload of a MAVLink 2 frame; byte 1 is the payload length. */
  const PAYLOAD_OFFSET := 10

  // Little-endian words

  function Le(n: nat, width: nat): (r: seq<Byte>)
    ensures |r| == width
  {
    if width == 0 then [] else [n % 256] + Le(n / 256, width - 1)
  }

  function FromLe(s: seq<Byte>): nat {
    if s == [] then 0 else s[0] + 256 * FromLe(s[1..])
  }

  function Pow256(width: nat): (r: nat)
    ensures r > 0
  {
    if width == 0 then 1 else 256 * Pow256(width - 1)
  }

  lemma {:induction false} LeRoundTrip(n: nat, width: nat)
    ensures FromLe(Le(n, width)) == n % Pow256(width)
  {
    if width > 0 {
      LeRoundTrip(n / 256, width - 1);
      ModuloByteByByte(n, Pow256(width - 1));
      assert Le(n, width)[1..] == Le(n / 256, width - 1);
    }
  }

  lemma ModuloByteByByte(n: nat, p: nat)
    requires p > 0
    ensures n % (256 * p) == 256 * (n / 256 % p) + n % 256
  {
    var m := n / 256;
    var q, r := m / p, m % p;
    assert m == q * p + r;
    Regroup(q, p);
    DivisionIsUnique(n, 256 * p, q, 256 * r + n % 256);
  }

  lemma Regroup(q: int, p: int)
    ensures 256 * (q * p) == q * (256 * p)
  {
  }

  lemma Scale(a: int, b: int, d: int)
    requires a <= b && d > 0
    ensures a * d <= b * d
  {
  }

  lemma DivisionIsUnique(n: int, d: int, q: int, r: int)
    requires d > 0 && n == q * d + r && 0 <= r < d
    ensures n / d == q && n % d == r
  {
    var a := n / d;
    assert n == a * d + n % d && 0 <= n % d < d;
    if a < q {
      Scale(a + 1, q, d);
    } else if a > q {
      Scale(q + 1, a, d);
    }
  }

  lemma {:induction false} FromLeSplit(a: seq<Byte>, b: seq<Byte>)
    ensures FromLe(a + b) == FromLe(a) + Pow256(|a|) * FromLe(b)
    ensures FromLe(a) < Pow256(|a|)
  {
    if a == [] {
      assert a + b == b;
    } else {
      FromLeSplit(a[1..], b);
      assert (a + b)[1..] == a[1..] + b;
      assert 256 * (Pow256(|a| - 1) * FromLe(b)) == Pow256(|a|) * FromLe(b);
    }
  }

  function Zeros(n: nat): seq<Byte> {
    seq(n, _ => 0)
  }

  lemma {:induction false} LeFromLe(s: seq<Byte>)
    ensures Le(FromLe(s), |s|) == s
  {
    if s != [] {
      LeFromLe(s[1..]);
      DivisionIsUnique(FromLe(s), 256, FromLe(s[1..]), s[0]);
    }
  }

  // Frames

  /** A serialized, unsigned frame: header, payload of the stated length, checksum. */
  predicate Framed(f: seq<Byte>) {
    |f| >= PAYLOAD_OFFSET + 2 && |f| == PAYLOAD_OFFSET + f[1] + 2
  }

  function Payload(f: seq<Byte>): seq<Byte>
    requires Framed(f)
  {
    f[PAYLOAD_OFFSET..|f| - 2]
  }

  predicate ChecksumHolds(f: seq<Byte>, crc: Checksum, extra: Byte)
    requires Framed(f)
  {
    f[|f| - 2..] == Le(crc(f[1..|f| - 2], extra), 2)
  }

  /** Equal but for the payload, its length and the checksum. */
  predicate SameHeader(f: seq<Byte>, g: seq<Byte>)
    requires Framed(f) && Framed(g)
  {
    f[0] == g[0] && f[2..PAYLOAD_OFFSET] == g[2..PAYLOAD_OFFSET]
  }

  method WriteLe(buffer: array<Byte>, at: nat, n: nat, width: nat)
    requires at + width <= buffer.Length
    modifies buffer
    ensures buffer[at..at + width] == Le(n, width)
    ensures forall i :: 0 <= i < buffer.Length && !(at <= i < at + width) ==> buffer[i] == old(buffer[i])
    decreases width
  {
    if width > 0 {
      buffer[at] := n % 256;
      WriteLe(buffer, at + 1, n / 256, width - 1);
      assert buffer[at..at + width] == [buffer[at]] + buffer[at + 1..at + width];
    }
  }

  method WriteChecksum(buffer: array<Byte>, crc: Checksum, extra: Byte)
    requires Framed(buffer[..])
    modifies buffer
    ensures Framed(buffer[..]) && ChecksumHolds(buffer[..], crc, extra)
    ensures buffer[..buffer.Length - 2] == old(buffer[..buffer.Length - 2])
  {
    var n := buffer.Length;
    var covered := buffer[1..n - 2];
    WriteLe(buffer, n - 2, crc(covered, extra), 2);
    assert buffer[..n - 2] == old(buffer[..n - 2]);
    assert buffer[..][1..n - 2] == covered;
    assert buffer[..][n - 2..] == buffer[n - 2..n];
  }

  /** Re-frames an empty payload with the one zero byte that the specification demands. */
  method EnsureMinV2Payload(buffer: array<Byte>, crc: Checksum, extra: Byte) returns (out: array<Byte>)
    requires Framed(buffer[..])
    ensures Framed(out[..]) && SameHeader(buffer[..], out[..])
    ensures buffer[1] != 0 ==> out == buffer
    ensures buffer[1] == 0 ==> Payload(out[..]) == [0] && ChecksumHolds(out[..], crc, extra)
  {
    if buffer[1] != 0 {
      return buffer;
    }
    out := new Byte[PAYLOAD_OFFSET + 1 + 2](_ => 0);
    for i := 0 to PAYLOAD_OFFSET
      invariant forall k :: 0 <= k < out.Length ==> out[k] == if k < i then buffer[k] else 0
    {
      out[i] := buffer[i];
    }
    out[1] := 1;
    WriteChecksum(out, crc, extra);
    assert Payload(out[..]) == out[..out.Length - 2][PAYLOAD_OFFSET..];
    forall i | 0 <= i < PAYLOAD_OFFSET && i != 1 ensures out[i] == buffer[i] {
      assert out[i] == out[..out.Length - 2][i];
    }
  }

  // Exact float bits

  datatype Field = Field(source: string, isFloat: bool, offset: nat)

  function Extended(p: seq<Byte>, size: nat): (r: seq<Byte>)
    ensures |r| == if |p| < size then size else |p|
  {
    if |p| < size then p + Zeros(size - |p|) else p
  }

  /** The payload with `bits` at `offset`, re-extended with zeros if it was cut short of the field. */
  function PatchPayload(p: seq<Byte>, offset: nat, bits: Word32): (r: seq<Byte>)
    ensures |r| == if |p| < offset + 4 then offset + 4 else |p|
  {
    var q := Extended(p, offset + 4);
    q[..offset] + Le(bits, 4) + q[offset + 4..]
  }

  function Find(fields: seq<Field>, source: string): Option<Field> {
    if fields == [] then None else if fields[0].source == source then Some(fields[0]) else Find(fields[1..], source)
  }

  /** All patches in order, or nothing if one names no scalar float field. */
  function PatchAll(p: seq<Byte>, fields: seq<Field>, exact: seq<(string, Word32)>): Option<seq<Byte>>
    decreases |exact|
  {
    if exact == [] then Some(p)
    else
      var f := Find(fields, exact[0].0);
      if f.None? || !f.value.isFloat then None
      else PatchAll(PatchPayload(p, f.value.offset, exact[0].1), fields, exact[1..])
  }

  ghost predicate FitsWire(fields: seq<Field>) {
    forall f :: f in fields ==> f.offset + 4 <= 255
  }

  lemma {:induction false} FindIsMember(fields: seq<Field>, source: string)
    ensures Find(fields, source).Some? ==> Find(fields, source).value in fields
  {
    if fields != [] && fields[0].source != source {
      FindIsMember(fields[1..], source);
    }
  }

  /** A copy of the frame whose payload is re-extended with zeros; the checksum is left to be written. */
  method Grow(frame: array<Byte>, size: nat) returns (grown: array<Byte>)
    requires Framed(frame[..]) && frame[1] < size <= 255
    ensures fresh(grown) && Framed(grown[..]) && SameHeader(frame[..], grown[..])
    ensures Payload(grown[..]) == Extended(Payload(frame[..]), size)
  {
    var current := frame[1];
    grown := new Byte[PAYLOAD_OFFSET + size + 2](_ => 0);
    for i := 0 to PAYLOAD_OFFSET + current
      invariant forall k :: 0 <= k < grown.Length ==> grown[k] == if k < i then frame[k] else 0
    {
      grown[i] := frame[i];
    }
    grown[1] := size;
    assert forall i :: 2 <= i < PAYLOAD_OFFSET ==> grown[..][i] == frame[..][i];
    var p, q := Payload(frame[..]), Payload(grown[..]);
    forall i | 0 <= i < size ensures q[i] == Extended(p, size)[i] {
      assert q[i] == grown[PAYLOAD_OFFSET + i];
      assert i < current ==> p[i] == frame[PAYLOAD_OFFSET + i];
    }
  }

  method PatchField(frame: array<Byte>, offset: nat, bits: Word32) returns (out: array<Byte>)
    requires Framed(frame[..]) && offset + 4 <= 255
    modifies frame
    ensures out == frame || fresh(out)
    ensures Framed(out[..]) && SameHeader(old(frame[..]), out[..])
    ensures Payload(out[..]) == PatchPayload(old(Payload(frame[..])), offset, bits)
  {
    out := frame;
    if frame[1] < offset + 4 {
      out := Grow(frame, offset + 4);
    }
    ghost var before := out[..];
    WriteLe(out, PAYLOAD_OFFSET + offset, bits, 4);
    Spliced(before, out[..], PAYLOAD_OFFSET + offset, Le(bits, 4));
    SplicedPayload(before, out[..], offset, Le(bits, 4));
  }

  lemma Spliced(before: seq<Byte>, after: seq<Byte>, at: nat, word: seq<Byte>)
    requires |before| == |after| && at + |word| <= |after| && after[at..at + |word|] == word
    requires forall i :: 0 <= i < |after| && !(at <= i < at + |word|) ==> after[i] == before[i]
    ensures after == before[..at] + word + before[at + |word|..]
  {
    assert forall i :: at <= i < at + |word| ==> after[i] == after[at..at + |word|][i - at];
  }

  lemma SplicedPayload(before: seq<Byte>, after: seq<Byte>, offset: nat, word: seq<Byte>)
    requires Framed(before) && |word| == 4 && offset + 4 <= |before| - PAYLOAD_OFFSET - 2
    requires after == before[..PAYLOAD_OFFSET + offset] + word + before[PAYLOAD_OFFSET + offset + 4..]
    ensures Framed(after) && SameHeader(before, after)
    ensures Payload(after) == Payload(before)[..offset] + word + Payload(before)[offset + 4..]
  {
    assert |after| == |before|;
    assert forall i :: 0 <= i < PAYLOAD_OFFSET ==> after[i] == before[i];
    var p, q := Payload(before), Payload(after);
    assert forall i :: 0 <= i < |p| ==> q[i] == after[PAYLOAD_OFFSET + i] && p[i] == before[PAYLOAD_OFFSET + i];
  }

  /** Overwrites float fields with exact bit patterns, in place where they fit, and reseals the frame. */
  method ApplyExactFloatBits(
      frame: array<Byte>, fields: seq<Field>, exact: seq<(string, Word32)>, crc: Checksum, extra: Byte)
    returns (out: Option<array<Byte>>)
    requires Framed(frame[..]) && FitsWire(fields)
    modifies frame
    ensures out.Some? <==> PatchAll(old(Payload(frame[..])), fields, exact).Some?
    ensures out.Some? ==>
      && (out.value == frame || fresh(out.value))
      && Framed(out.value[..]) && SameHeader(old(frame[..]), out.value[..])
      && Some(Payload(out.value[..])) == PatchAll(old(Payload(frame[..])), fields, exact)
      && ChecksumHolds(out.value[..], crc, extra)
  {
    var buffer := frame;
    for k := 0 to |exact|
      invariant buffer == frame || fresh(buffer)
      invariant Framed(buffer[..]) && SameHeader(old(frame[..]), buffer[..])
      invariant PatchAll(Payload(buffer[..]), fields, exact[k..]) == PatchAll(old(Payload(frame[..])), fields, exact)
    {
      var f := Find(fields, exact[k].0);
      FindIsMember(fields, exact[k].0);
      if f.None? || !f.value.isFloat {
        return None;
      }
      assert exact[k..][1..] == exact[k + 1..];
      buffer := PatchField(buffer, f.value.offset, exact[k].1);
    }
    ghost var patched := buffer[..];
    WriteChecksum(buffer, crc, extra);
    SamePayload(patched, buffer[..]);
    return Some(buffer);
  }

  lemma SamePayload(f: seq<Byte>, g: seq<Byte>)
    requires Framed(f) && |f| == |g| && f[..|f| - 2] == g[..|g| - 2]
    ensures Framed(g) && Payload(g) == Payload(f) && forall h :: Framed(h) && SameHeader(h, f) ==> SameHeader(h, g)
  {
    assert forall i :: 0 <= i < |f| - 2 ==> g[i] == g[..|g| - 2][i] == f[i];
  }

  // What patching leaves alone

  predicate InField(fields: seq<Field>, source: string, i: nat) {
    var f := Find(fields, source);
    f.Some? && f.value.offset <= i < f.value.offset + 4
  }

  /** A byte of the payload, zero where the payload was cut short. */
  function ByteAt(p: seq<Byte>, i: nat): Byte {
    if i < |p| then p[i] else 0
  }

  lemma PatchOne(p: seq<Byte>, offset: nat, bits: Word32, i: nat)
    ensures ByteAt(PatchPayload(p, offset, bits), i) ==
      if offset <= i < offset + 4 then Le(bits, 4)[i - offset] else ByteAt(p, i)
  {
  }

  /** What byte `i` of the payload is after the patches: the last patch of a field that holds it decides, and
      without one it is the old byte, or zero where the payload was re-extended. */
  function PatchedByte(p: seq<Byte>, fields: seq<Field>, exact: seq<(string, Word32)>, i: nat): Byte {
    if exact == [] then ByteAt(p, i)
    else
      var (source, bits) := exact[|exact| - 1];
      if InField(fields, source, i) then Le(bits, 4)[i - Find(fields, source).value.offset]
      else PatchedByte(p, fields, exact[..|exact| - 1], i)
  }

  lemma {:induction false} PatchAllConcat(
      p: seq<Byte>, fields: seq<Field>, a: seq<(string, Word32)>, b: seq<(string, Word32)>)
    ensures PatchAll(p, fields, a + b) ==
      if PatchAll(p, fields, a).None? then None else PatchAll(PatchAll(p, fields, a).value, fields, b)
    decreases |a|
  {
    if a == [] {
      assert a + b == b;
    } else {
      assert (a + b)[0] == a[0] && (a + b)[1..] == a[1..] + b;
      var f := Find(fields, a[0].0);
      if f.Some? && f.value.isFloat {
        PatchAllConcat(PatchPayload(p, f.value.offset, a[0].1), fields, a[1..], b);
      }
    }
  }

  lemma PatchAllLast(p: seq<Byte>, fields: seq<Field>, exact: seq<(string, Word32)>)
    requires exact != [] && PatchAll(p, fields, exact).Some?
    ensures var (source, bits) := exact[|exact| - 1];
      && PatchAll(p, fields, exact[..|exact| - 1]).Some? && Find(fields, source).Some?
      && PatchAll(p, fields, exact).value ==
         PatchPayload(PatchAll(p, fields, exact[..|exact| - 1]).value, Find(fields, source).value.offset, bits)
  {
    var init, last := exact[..|exact| - 1], exact[|exact| - 1..];
    assert exact == init + last;
    PatchAllConcat(p, fields, init, last);
    assert last[1..] == [];
  }

  /** However many fields are patched, every byte of the payload is the one the last patch of its field wrote; a
      byte outside every named field is the old one, or zero where the payload was re-extended. */
  lemma {:induction false} PatchTouchesOnlyNamedFields(
      p: seq<Byte>, fields: seq<Field>, exact: seq<(string, Word32)>, i: nat)
    requires PatchAll(p, fields, exact).Some?
    ensures ByteAt(PatchAll(p, fields, exact).value, i) == PatchedByte(p, fields, exact, i)
    ensures (forall k :: 0 <= k < |exact| ==> !InField(fields, exact[k].0, i)) ==>
      ByteAt(PatchAll(p, fields, exact).value, i) == ByteAt(p, i)
    decreases |exact|
  {
    if exact != [] {
      var init := exact[..|exact| - 1];
      var (source, bits) := exact[|exact| - 1];
      PatchAllLast(p, fields, exact);
      PatchOne(PatchAll(p, fields, init).value, Find(fields, source).value.offset, bits, i);
      PatchTouchesOnlyNamedFields(p, fields, init, i);
    }
  }

  /** What is captured: the field's bytes, those that were trimmed standing for zeros. */
  function CapturedBytes(payload: seq<Byte>, offset: nat): seq<Byte>
    requires offset <= |payload|
  {
    var present := payload[offset..if offset + 4 <= |payload| then offset + 4 else |payload|];
    present + Zeros(4 - |present|)
  }

  /** The decoder's capture of a float field's exact bits: four bytes of the payload, zero-filled where
      truncation cut the payload short. */
  function CaptureBits(payload: seq<Byte>, offset: nat): Word32
    requires offset <= |payload|
  {
    FromLeSplit(CapturedBytes(payload, offset), []);
    assert Pow256(4) == 256 * (256 * (256 * (256 * Pow256(0))));
    FromLe(CapturedBytes(payload, offset))
  }

  /** `q` is what is left of `p` after some of its trailing zero bytes were trimmed. */
  ghost predicate Truncated(p: seq<Byte>, q: seq<Byte>) {
    |q| <= |p| && p == q + Zeros(|p| - |q|)
  }

  lemma CapturedIsWritten(p: seq<Byte>, offset: nat, bits: Word32, received: seq<Byte>)
    requires Truncated(PatchPayload(p, offset, bits), received) && offset <= |received|
    ensures CapturedBytes(received, offset) == Le(bits, 4)
  {
    var full := PatchPayload(p, offset, bits);
    assert full == received + Zeros(|full| - |received|);
    forall i | 0 <= i < 4 ensures CapturedBytes(received, offset)[i] == Le(bits, 4)[i] {
      assert full[offset + i] == Le(bits, 4)[i];
    }
  }

  /** The bits written are the bits captured, however many of the trailing zeros the link trimmed. */
  lemma PatchedBitsAreCaptured(p: seq<Byte>, offset: nat, bits: Word32, received: seq<Byte>)
    requires Truncated(PatchPayload(p, offset, bits), received) && offset <= |received|
    ensures CaptureBits(received, offset) == bits
  {
    CapturedIsWritten(p, offset, bits, received);
    LeRoundTrip(bits, 4);
    assert Pow256(4) == 256 * (256 * (256 * (256 * Pow256(0)))) == 0x1_0000_0000;
  }

  // The parameter byte union

  datatype IntType = UInt8 | Int8 | UInt16 | Int16 | UInt32 | Int32

  function Width(t: IntType): nat {
    match t
    case UInt8 => 1
    case Int8 => 1
    case UInt16 => 2
    case Int16 => 2
    case UInt32 => 4
    case Int32 => 4
  }

  predicate Signed(t: IntType) {
    t.Int8? || t.Int16? || t.Int32?
  }

  predicate InRange(v: int, t: IntType) {
    match t
    case UInt8 => 0 <= v <= 0xff
    case Int8 => -0x80 <= v <= 0x7f
    case UInt16 => 0 <= v <= 0xffff
    case Int16 => -0x8000 <= v <= 0x7fff
    case UInt32 => 0 <= v <= 0xffff_ffff
    case Int32 => -0x8000_0000 <= v <= 0x7fff_ffff
  }

  function Modulus(t: IntType): nat {
    if Width(t) == 1 then 0x100 else if Width(t) == 2 then 0x1_0000 else 0x1_0000_0000
  }

  lemma ModulusIsPow(t: IntType)
    ensures Modulus(t) == Pow256(Width(t))
  {
    assert Pow256(1) == 256 * Pow256(0);
    assert Pow256(2) == 256 * Pow256(1);
    assert Pow256(4) == 256 * (256 * Pow256(2));
  }

  /** Storing the value through the typed view into a zeroed four-byte buffer and reading the buffer as a
      32-bit word. */
  function UnionIntToBits(v: int, t: IntType): Word32 {
    var stored := Le(v % Modulus(t), Width(t)) + Zeros(4 - Width(t));
    FromLeSplit(stored, []);
    assert Pow256(4) == 256 * (256 * (256 * (256 * Pow256(0))));
    FromLe(stored)
  }

  /** Storing the word and reading it back through the typed view. */
  function UnionBitsToInt(bits: Word32, t: IntType): int {
    var raw := FromLe(Le(bits, 4)[..Width(t)]);
    if Signed(t) && raw >= Modulus(t) / 2 then raw - Modulus(t) else raw
  }

  /** The widths are those of the types: a type holds exactly the values that its bytes can tell apart. */
  lemma RangeFillsWidth(v: int, t: IntType)
    ensures InRange(v, t) <==>
      if Signed(t) then -(Pow256(Width(t)) / 2) <= v < Pow256(Width(t)) / 2 else 0 <= v < Pow256(Width(t))
  {
    ModulusIsPow(t);
  }

  /** The union holds the value's two's complement in its low bytes, little-endian, and zeros above. */
  lemma UnionIsLittleEndian(v: int, t: IntType)
    requires InRange(v, t)
    ensures Le(UnionIntToBits(v, t), 4) == Le(if v < 0 then v + Pow256(Width(t)) else v, Width(t)) + Zeros(4 - Width(t))
    ensures UnionIntToBits(v, t) < Pow256(Width(t))
  {
    ModulusIsPow(t);
    RawModulo(v, Modulus(t));
    var raw := v % Modulus(t);
    var stored := Le(raw, Width(t)) + Zeros(4 - Width(t));
    LeFromLe(stored);
    FromLeSplit(Le(raw, Width(t)), Zeros(4 - Width(t)));
    ZerosAreZero(4 - Width(t));
  }

  lemma {:induction false} ZerosAreZero(n: nat)
    ensures FromLe(Zeros(n)) == 0
  {
    if n > 0 {
      assert Zeros(n)[1..] == Zeros(n - 1);
      ZerosAreZero(n - 1);
    }
  }

  lemma UnionKeepsRaw(v: int, t: IntType)
    ensures FromLe(Le(UnionIntToBits(v, t), 4)[..Width(t)]) == v % Modulus(t)
  {
    var raw := v % Modulus(t);
    var stored := Le(raw, Width(t)) + Zeros(4 - Width(t));
    LeFromLe(stored);
    assert stored[..Width(t)] == Le(raw, Width(t));
    LeRoundTrip(raw, Width(t));
    ModulusIsPow(t);
    SmallModulo(raw, Modulus(t));
  }

  lemma SmallModulo(raw: nat, m: nat)
    requires raw < m
    ensures raw % m == raw
  {
  }

  lemma RawModulo(v: int, m: int)
    requires m > 0 && -m <= v < m
    ensures v % m == if v < 0 then v + m else v
  {
    DivisionIsUnique(v, m, if v < 0 then -1 else 0, if v < 0 then v + m else v);
  }

  /** Every in-range integer of the six types survives the union, negative ones and those whose pattern is
      a float NaN included. */
  lemma UnionRoundTrip(v: int, t: IntType)
    requires InRange(v, t)
    ensures UnionBitsToInt(UnionIntToBits(v, t), t) == v
  {
    UnionKeepsRaw(v, t);
    RawModulo(v, Modulus(t));
  }

  /** End to end: an in-range integer patched into a PARAM_SET frame as its exact bits is what the receiver
      decodes, whatever the field held before and however the link truncates the payload. */
  lemma ByteUnionEndToEnd(p: seq<Byte>, fields: seq<Field>, source: string, v: int, t: IntType, received: seq<Byte>)
    requires InRange(v, t)
    requires Find(fields, source).Some? && Find(fields, source).value.isFloat
    requires var sent := PatchAll(p, fields, [(source, UnionIntToBits(v, t))]);
      sent.Some? ==> Truncated(sent.value, received)
    requires Find(fields, source).value.offset <= |received|
    ensures UnionBitsToInt(CaptureBits(received, Find(fields, source).value.offset), t) == v
  {
    var offset := Find(fields, source).value.offset;
    var exact := [(source, UnionIntToBits(v, t))];
    assert exact[1..] == [];
    PatchedBitsAreCaptured(p, offset, UnionIntToBits(v, t), received);
    UnionRoundTrip(v, t);
  }
}
