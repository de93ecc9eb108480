/** The wire layout that the dialect compiler gives a message. */
module DialectCompilers {
  import opened StableSorting

  /** A field as the XML declares it: `fieldSize` is the size of one element, `size` that of the whole field. */
  datatype FieldDef = FieldDef(
    name: string, fieldType: string, fieldSize: nat, size: nat, arrayLength: nat, extension: bool)

  datatype PacketField = PacketField(
    name: string, offset: nat, extension: bool, fieldSize: nat, fieldType: string, arrayLength: nat)

  function IsBase(): FieldDef -> bool {
    (f: FieldDef) => !f.extension
  }

  function IsExtension(): FieldDef -> bool {
    (f: FieldDef) => f.extension
  }

  function LargestFirst(): (FieldDef, FieldDef) -> bool {
    (a: FieldDef, b: FieldDef) => a.fieldSize >= b.fieldSize
  }

  function WireOrder(defs: seq<FieldDef>): seq<FieldDef> {
    Sort(LargestFirst(), Filter(IsBase(), defs)) + Filter(IsExtension(), defs)
  }

  function TotalSize(fields: seq<FieldDef>): nat {
    if fields == [] then 0 else TotalSize(fields[..|fields| - 1]) + fields[|fields| - 1].size
  }

  /** Where the i-th field of a gapless layout starts. */
  function Offset(order: seq<FieldDef>, i: nat): nat
    requires i <= |order|
  {
    TotalSize(order[..i])
  }

  /** The emitted field says what was declared. */
  predicate Declares(f: FieldDef, p: PacketField) {
    && p.name == f.name && p.extension == f.extension && p.fieldSize == f.fieldSize
    && p.fieldType == f.fieldType && p.arrayLength == f.arrayLength
  }

  /** The emitted fields are those of the order, one right behind the other from byte 0 on. */
  ghost predicate LaysOut(order: seq<FieldDef>, fields: seq<PacketField>) {
    && |fields| == |order|
    && (fields != [] ==> fields[0].offset == 0)
    && (forall i :: 0 <= i < |fields| - 1 ==> fields[i + 1].offset == fields[i].offset + order[i].size)
    && (forall i :: 0 <= i < |fields| ==> Declares(order[i], fields[i]))
  }

  method BuildFields(defs: seq<FieldDef>) returns (fields: seq<PacketField>)
    ensures LaysOut(WireOrder(defs), fields)
  {
    var base := Sort(LargestFirst(), Filter(IsBase(), defs));
    var ext := Filter(IsExtension(), defs);
    var order := base + ext;
    fields := [];
    var offset := 0;
    for k := 0 to |order|
      invariant LaysOut(order[..k], fields) && offset == End(order[..k], fields)
    {
      var f := order[k];
      var p := PacketField(f.name, offset, f.extension, f.fieldSize, f.fieldType, f.arrayLength);
      OneMoreField(order[..k], fields, f, p);
      assert order[..k + 1] == order[..k] + [f];
      fields := fields + [p];
      offset := offset + f.size;
    }
    assert order[..|order|] == order;
  }

  /** Where the next field goes. */
  function End(order: seq<FieldDef>, fields: seq<PacketField>): nat
    requires |order| == |fields|
  {
    if fields == [] then 0 else fields[|fields| - 1].offset + order[|order| - 1].size
  }

  lemma OneMoreField(order: seq<FieldDef>, fields: seq<PacketField>, f: FieldDef, p: PacketField)
    requires LaysOut(order, fields) && Declares(f, p) && p.offset == End(order, fields)
    ensures LaysOut(order + [f], fields + [p]) && End(order + [f], fields + [p]) == p.offset + f.size
  {
  }

  lemma {:induction false} EmittedAtOffset(order: seq<FieldDef>, fields: seq<PacketField>, i: nat)
    requires LaysOut(order, fields) && i < |fields|
    ensures fields[i].offset == Offset(order, i)
  {
    if i > 0 {
      EmittedAtOffset(order, fields, i - 1);
      OffsetNext(order, i - 1);
      assert fields[(i - 1) + 1].offset == fields[i - 1].offset + order[i - 1].size;
    }
  }

  lemma OffsetNext(order: seq<FieldDef>, i: nat)
    requires i < |order|
    ensures Offset(order, i + 1) == Offset(order, i) + order[i].size
  {
    assert order[..i + 1][..i] == order[..i];
  }

  // The bytes

  /** Ranges follow each other without overlap. */
  lemma {:induction false} RangesAreDisjoint(order: seq<FieldDef>, i: nat, j: nat)
    requires i < j <= |order|
    ensures Offset(order, i) + order[i].size <= Offset(order, j)
  {
    OffsetNext(order, j - 1);
    if i < j - 1 {
      RangesAreDisjoint(order, i, j - 1);
    }
  }

  predicate Covers(order: seq<FieldDef>, i: nat, b: nat) {
    i < |order| && Offset(order, i) <= b < Offset(order, i) + order[i].size
  }

  lemma {:induction false} SomeFieldCovers(order: seq<FieldDef>, n: nat, b: nat)
    requires n <= |order| && b < Offset(order, n)
    ensures exists i: nat :: i < n && Covers(order, i, b)
  {
    assert n > 0;
    OffsetNext(order, n - 1);
    if b < Offset(order, n - 1) {
      SomeFieldCovers(order, n - 1, b);
    } else {
      assert Covers(order, n - 1, b);
    }
  }

  lemma OrderTiles(order: seq<FieldDef>, b: nat)
    ensures b < TotalSize(order) <==> exists i: nat :: Covers(order, i, b)
    ensures forall i: nat, j: nat :: Covers(order, i, b) && Covers(order, j, b) ==> i == j
  {
    assert order[..|order|] == order;
    if b < TotalSize(order) {
      SomeFieldCovers(order, |order|, b);
      var i: nat :| i < |order| && Covers(order, i, b);
    }
    forall i: nat | Covers(order, i, b) ensures b < TotalSize(order) {
      RangesAreDisjoint(order, i, |order|);
    }
    forall i: nat, j: nat | i < j && Covers(order, i, b) && Covers(order, j, b) ensures false {
      RangesAreDisjoint(order, i, j);
    }
  }

  /** The byte lies in the range of the i-th emitted field. */
  predicate Holds(order: seq<FieldDef>, fields: seq<PacketField>, i: nat, b: nat) {
    i < |fields| && i < |order| && fields[i].offset <= b < fields[i].offset + order[i].size
  }

  /** The emitted fields tile the payload: each of its bytes belongs to exactly one of them. */
  lemma FieldsTilePayload(defs: seq<FieldDef>, fields: seq<PacketField>, b: nat)
    requires LaysOut(WireOrder(defs), fields)
    ensures b < TotalSize(WireOrder(defs)) <==> exists i: nat :: Holds(WireOrder(defs), fields, i, b)
    ensures forall i: nat, j: nat ::
      Holds(WireOrder(defs), fields, i, b) && Holds(WireOrder(defs), fields, j, b) ==> i == j
  {
    var order := WireOrder(defs);
    OrderTiles(order, b);
    forall i: nat ensures Holds(order, fields, i, b) <==> Covers(order, i, b) {
      if i < |order| {
        EmittedAtOffset(order, fields, i);
      }
    }
  }

  // The order

  function OfSize(size: nat): FieldDef -> bool {
    (f: FieldDef) => f.fieldSize == size
  }

  /** The order MAVLink prescribes: base fields by falling element size, equal sizes as declared, then the
      extensions as declared. */
  ghost predicate Prescribed(defs: seq<FieldDef>, base: seq<FieldDef>, ext: seq<FieldDef>) {
    && ext == Filter(IsExtension(), defs)
    && Ordered(LargestFirst(), base)
    && forall size :: Filter(OfSize(size), base) == Filter(OfSize(size), Filter(IsBase(), defs))
  }

  lemma {:induction false} AllSame(size: nat, s: seq<FieldDef>)
    ensures Ordered(LargestFirst(), Filter(OfSize(size), s))
  {
    FilterMembers(OfSize(size), s);
    var part := Filter(OfSize(size), s);
    assert forall i :: 0 <= i < |part| ==> part[i] in part;
  }

  lemma EmptyParts(a: seq<FieldDef>, b: seq<FieldDef>)
    requires forall size :: Filter(OfSize(size), a) == Filter(OfSize(size), b)
    ensures b == [] ==> a == []
  {
    if a != [] {
      assert Filter(OfSize(a[0].fieldSize), a)[0] == a[0];
    }
  }

  lemma {:induction false} SameParts(a: seq<FieldDef>, b: seq<FieldDef>)
    requires Ordered(LargestFirst(), a) && Ordered(LargestFirst(), b)
    requires forall size :: Filter(OfSize(size), a) == Filter(OfSize(size), b)
    ensures a == b
  {
    if a == [] || b == [] {
      EmptyParts(a, b);
      EmptyParts(b, a);
    } else {
      HeadIsLargest(a, b);
      HeadIsLargest(b, a);
      assert Filter(OfSize(a[0].fieldSize), a)[0] == a[0];
      assert Filter(OfSize(b[0].fieldSize), b)[0] == b[0];
      forall size ensures Filter(OfSize(size), a[1..]) == Filter(OfSize(size), b[1..]) {
        var head := if a[0].fieldSize == size then [a[0]] else [];
        assert head + Filter(OfSize(size), a[1..]) == head + Filter(OfSize(size), b[1..]);
        assert Filter(OfSize(size), a[1..]) == Filter(OfSize(size), a)[|head|..];
        assert Filter(OfSize(size), b[1..]) == Filter(OfSize(size), b)[|head|..];
      }
      SameParts(a[1..], b[1..]);
    }
  }

  lemma HeadIsLargest(a: seq<FieldDef>, b: seq<FieldDef>)
    requires a != [] && b != [] && Ordered(LargestFirst(), a)
    requires forall size :: Filter(OfSize(size), a) == Filter(OfSize(size), b)
    ensures a[0].fieldSize >= b[0].fieldSize
  {
    var size := b[0].fieldSize;
    FilterMembers(OfSize(size), a);
    FilterMembers(OfSize(size), b);
    assert b[0] in Filter(OfSize(size), a);
    var i :| 0 <= i < |a| && a[i] == b[0];
    assert i > 0 ==> LargestFirst()(a[0], a[i]);
  }

  /** The compiled order is the prescribed one, and no other order is. */
  lemma WireOrderIsPrescribed(defs: seq<FieldDef>, base: seq<FieldDef>, ext: seq<FieldDef>)
    ensures Prescribed(defs, base, ext) <==>
      base == Sort(LargestFirst(), Filter(IsBase(), defs)) && base + ext == WireOrder(defs)
  {
    var declared := Filter(IsBase(), defs);
    var sorted := Sort(LargestFirst(), declared);
    SortFacts(LargestFirst(), declared);
    forall size ensures Filter(OfSize(size), sorted) == Filter(OfSize(size), declared) {
      AllSame(size, declared);
      SortKeepsOrderedPart(LargestFirst(), OfSize(size), declared);
    }
    if Prescribed(defs, base, ext) {
      SameParts(base, sorted);
    }
    if base == sorted && base + ext == WireOrder(defs) {
      assert ext == (base + ext)[|base|..];
      assert ext == Filter(IsExtension(), defs);
    }
  }

  lemma {:induction false} PartsMakeWhole(defs: seq<FieldDef>)
    ensures multiset(Filter(IsBase(), defs)) + multiset(Filter(IsExtension(), defs)) == multiset(defs)
  {
    if defs != [] {
      PartsMakeWhole(defs[1..]);
      assert defs == [defs[0]] + defs[1..];
    }
  }

  /** No field is lost, invented or repeated. */
  lemma NoFieldIsLost(defs: seq<FieldDef>)
    ensures multiset(WireOrder(defs)) == multiset(defs)
  {
    PartsMakeWhole(defs);
    SortFacts(LargestFirst(), Filter(IsBase(), defs));
  }

  // Alignment

  predicate IsSize(size: nat) {
    size == 1 || size == 2 || size == 4 || size == 8
  }

  predicate WellSized(f: FieldDef) {
    IsSize(f.fieldSize) && f.size % f.fieldSize == 0
  }

  lemma MultipleOfSmaller(x: nat, large: nat, small: nat)
    requires IsSize(large) && IsSize(small) && small <= large && x % large == 0
    ensures x % small == 0
  {
    if large == 8 {
      EightIsEven(x);
    } else if large == 4 {
      FourIsEven(x);
    }
  }

  lemma EightIsEven(x: nat)
    requires x % 8 == 0
    ensures x % 4 == 0 && x % 2 == 0
  {
    var q := x / 8;
    assert x == 8 * q;
    var half, quarter := 2 * q, 4 * q;
    assert x == 4 * half && x == 2 * quarter;
  }

  lemma FourIsEven(x: nat)
    requires x % 4 == 0
    ensures x % 2 == 0
  {
    var q := x / 4;
    assert x == 4 * q;
    var half := 2 * q;
    assert x == 2 * half;
  }

  lemma SumOfMultiples(x: nat, y: nat, size: nat)
    requires IsSize(size) && x % size == 0 && y % size == 0
    ensures (x + y) % size == 0
  {
    var p, q := x / size, y / size;
    assert x == size * p && y == size * q;
  }

  lemma {:induction false} PrefixIsAligned(order: seq<FieldDef>, n: nat, size: nat)
    requires n <= |order| && IsSize(size)
    requires forall k :: 0 <= k < n ==> WellSized(order[k]) && order[k].fieldSize >= size
    ensures Offset(order, n) % size == 0
  {
    if n > 0 {
      PrefixIsAligned(order, n - 1, size);
      OffsetNext(order, n - 1);
      MultipleOfSmaller(order[n - 1].size, order[n - 1].fieldSize, size);
      SumOfMultiples(Offset(order, n - 1), order[n - 1].size, size);
    }
  }

  lemma ExtensionsComeLast(defs: seq<FieldDef>, i: nat)
    requires i < |WireOrder(defs)|
    ensures WireOrder(defs)[i].extension <==> i >= |Filter(IsBase(), defs)|
  {
    var base, ext := Sort(LargestFirst(), Filter(IsBase(), defs)), Filter(IsExtension(), defs);
    SortFacts(LargestFirst(), Filter(IsBase(), defs));
    FilterMembers(IsBase(), defs);
    FilterMembers(IsExtension(), defs);
    if i < |base| {
      assert WireOrder(defs)[i] == base[i] && base[i] in base;
    } else {
      assert WireOrder(defs)[i] == ext[i - |base|] && ext[i - |base|] in ext;
    }
  }

  lemma EarlierIsLarger(defs: seq<FieldDef>, k: nat, i: nat)
    requires k <= i < |WireOrder(defs)| && !WireOrder(defs)[i].extension
    ensures WireOrder(defs)[k] in defs && WireOrder(defs)[k].fieldSize >= WireOrder(defs)[i].fieldSize
  {
    var base := Sort(LargestFirst(), Filter(IsBase(), defs));
    ExtensionsComeLast(defs, i);
    SortFacts(LargestFirst(), Filter(IsBase(), defs));
    FilterMember(IsBase(), defs, base[k]);
    assert base[k] in base;
    assert k < i ==> LargestFirst()(base[k], base[i]);
  }

  /** A base field is emitted at a multiple of its element size. */
  lemma BaseFieldsAreAligned(defs: seq<FieldDef>, fields: seq<PacketField>, i: nat)
    requires LaysOut(WireOrder(defs), fields) && forall f :: f in defs ==> WellSized(f)
    requires i < |fields| && !fields[i].extension
    ensures IsSize(fields[i].fieldSize) && fields[i].offset % fields[i].fieldSize == 0
  {
    var order := WireOrder(defs);
    forall k | 0 <= k <= i ensures WellSized(order[k]) && order[k].fieldSize >= order[i].fieldSize {
      EarlierIsLarger(defs, k, i);
    }
    PrefixIsAligned(order, i, order[i].fieldSize);
    EmittedAtOffset(order, fields, i);
  }

  // Extending a message

  lemma SameFields(order: seq<FieldDef>, fields: seq<PacketField>, longer: seq<FieldDef>, more: seq<PacketField>)
    requires LaysOut(order, fields) && LaysOut(longer, more) && order <= longer
    ensures fields <= more
  {
    forall i | 0 <= i < |fields| ensures fields[i] == more[i] {
      EmittedAtOffset(order, fields, i);
      EmittedAtOffset(longer, more, i);
      assert longer[..i] == order[..i];
    }
  }

  /** Extensions never move the base fields: a receiver that knows none of them reads the same layout. */
  lemma ExtensionsMoveNothing(defs: seq<FieldDef>, fields: seq<PacketField>, baseOnly: seq<PacketField>)
    requires LaysOut(WireOrder(defs), fields) && LaysOut(WireOrder(Filter(IsBase(), defs)), baseOnly)
    ensures baseOnly <= fields
  {
    var base := Filter(IsBase(), defs);
    BaseTwice(defs);
    assert WireOrder(base) == Sort(LargestFirst(), base);
    SameFields(WireOrder(base), baseOnly, WireOrder(defs), fields);
  }

  lemma {:induction false} BaseTwice(defs: seq<FieldDef>)
    ensures Filter(IsBase(), Filter(IsBase(), defs)) == Filter(IsBase(), defs)
    ensures Filter(IsExtension(), Filter(IsBase(), defs)) == []
  {
    if defs != [] {
      BaseTwice(defs[1..]);
      var head := if IsBase()(defs[0]) then [defs[0]] else [];
      FilterConcat(IsBase(), head, Filter(IsBase(), defs[1..]));
      FilterConcat(IsExtension(), head, Filter(IsBase(), defs[1..]));
    }
  }

  /** A new extension declared last leaves every earlier field where it was and starts where the payload ended. */
  lemma AppendedExtensionComesLast(
      defs: seq<FieldDef>, e: FieldDef, fields: seq<PacketField>, more: seq<PacketField>)
    requires e.extension && LaysOut(WireOrder(defs), fields) && LaysOut(WireOrder(defs + [e]), more)
    ensures |more| == |fields| + 1 && fields <= more
    ensures Declares(e, more[|fields|]) && more[|fields|].offset == TotalSize(WireOrder(defs))
  {
    var order, longer := WireOrder(defs), WireOrder(defs + [e]);
    FilterConcat(IsBase(), defs, [e]);
    FilterConcat(IsExtension(), defs, [e]);
    FilterOne(IsBase(), e);
    FilterOne(IsExtension(), e);
    assert Filter(IsBase(), defs) + [] == Filter(IsBase(), defs);
    assert longer == order + [e];
    SameFields(order, fields, longer, more);
    EmittedAtOffset(longer, more, |order|);
    assert longer[..|order|] == order;
  }
}
