/**
 * The constant pool (section 4.4 of the Java Virtual Machine Specification):
 * its entries, its decoder and the checked lookups the rest of the decoder
 * resolves names through (src/classfile.rs, `ConstantPool`, `CpInfo`,
 * `parse_constant_pool`).
 */
module Pool {
  import opened Bytes
  import opened Results
  import opened Cursor

  datatype Option<+T> = None | Some(value: T)

  /**
   * One constant-pool entry. Utf8 keeps the raw bytes of the entry (their
   * lossy UTF-8 decoding is not modelled), Float and Double keep the IEEE
   * bit pattern, Integer and Long the two's-complement value.
   */
  datatype CpInfo =
    | Utf8(bytes: seq<u8>)
    | Integer(intValue: i32)
    | Float(floatBits: u32)
    | Long(longValue: i64)
    | Double(doubleBits: u64)
    | Class(nameIndex: u16)
    | String(stringIndex: u16)
    | Fieldref(classIndex: u16, nameAndTypeIndex: u16)
    | Methodref(classIndex: u16, nameAndTypeIndex: u16)
    | InterfaceMethodref(classIndex: u16, nameAndTypeIndex: u16)
    | NameAndType(nameIndex: u16, descriptorIndex: u16)
    | MethodHandle(referenceKind: u8, referenceIndex: u16)
    | MethodType(descriptorIndex: u16)
    | Dynamic(bootstrapMethodAttrIndex: u16, nameAndTypeIndex: u16)
    | InvokeDynamic(bootstrapMethodAttrIndex: u16, nameAndTypeIndex: u16)
    | Module(nameIndex: u16)
    | Package(nameIndex: u16)

  /** Slot 0 and the slot after every Long or Double hold no entry. */
  datatype ConstantPool = ConstantPool(entries: seq<Option<CpInfo>>)

  /** The tag byte of each entry kind (Table 4.4-B of the JVM specification). */
  function TagOf(e: CpInfo): u8 {
    match e
    case Utf8(_) => 1
    case Integer(_) => 3
    case Float(_) => 4
    case Long(_) => 5
    case Double(_) => 6
    case Class(_) => 7
    case String(_) => 8
    case Fieldref(_, _) => 9
    case Methodref(_, _) => 10
    case InterfaceMethodref(_, _) => 11
    case NameAndType(_, _) => 12
    case MethodHandle(_, _) => 15
    case MethodType(_) => 16
    case Dynamic(_, _) => 17
    case InvokeDynamic(_, _) => 18
    case Module(_) => 19
    case Package(_) => 20
  }

  /** The tags the decoder accepts. */
  predicate KnownTag(t: u8) {
    t in {1, 3, 4, 5, 6, 7, 8, 9, 10, 11, 12, 15, 16, 17, 18, 19, 20}
  }

  /** Long and Double take two slots of the pool (section 4.4.5). */
  predicate IsWide(e: CpInfo) {
    e.Long? || e.Double?
  }

  /** Checked lookup: index 0, an index past the end and an empty slot all fail. */
  function Get(cp: ConstantPool, index: u16): (r: Result<CpInfo>)
    ensures r.Ok? <==> 0 < index < |cp.entries| && cp.entries[index].Some?
    ensures r.Ok? ==> cp.entries[index] == Some(r.value)
    ensures r.Err? ==> r.error == InvalidConstantPoolIndex(index)
  {
    if index == 0 then Err(InvalidConstantPoolIndex(index))
    else if index as int < |cp.entries| && cp.entries[index].Some? then Ok(cp.entries[index].value)
    else Err(InvalidConstantPoolIndex(index))
  }

  /** Lookup of a Utf8 entry; any other entry kind at that index is an invalid index. */
  function GetUtf8(cp: ConstantPool, index: u16): (r: Result<seq<u8>>)
    ensures r.Ok? <==> Get(cp, index).Ok? && Get(cp, index).value.Utf8?
    ensures r.Ok? ==> cp.entries[index] == Some(Utf8(r.value))
    ensures r.Err? ==> r.error == InvalidConstantPoolIndex(index)
  {
    var e :- Get(cp, index);
    if e.Utf8? then Ok(e.bytes) else Err(InvalidConstantPoolIndex(index))
  }

  function Join64(hi: u32, lo: u32): (v: u64)
    ensures v / 0x1_0000_0000 == hi && v % 0x1_0000_0000 == lo
  {
    hi * 0x1_0000_0000 + lo
  }

  /** The two u4 halves of a Long or Double entry, joined, are the eight bytes read big-endian. */
  lemma Join64IsBigEndian(d: seq<u8>, p: nat)
    requires p + 8 <= |d|
    ensures Join64(BigEndian32(d, p), BigEndian32(d, p + 4)) == BigEndian(d[p..p + 8])
  {
    BigEndian32Is(d, p);
    BigEndian32Is(d, p + 4);
    assert d[p..p + 8] == d[p..p + 4] + d[p + 4..p + 8];
    BigEndianConcat(d[p..p + 4], d[p + 4..p + 8]);
    assert Pow256(4) == 0x1_0000_0000;
  }

  /** One entry: a tag byte, then the payload that tag selects. */
  function Entry(d: seq<u8>, p: nat): (r: Result<Decoded<CpInfo>>)
    requires p <= |d|
    ensures Advances(r, d, p)
    ensures p == |d| ==> r == Err(UnexpectedEof)
    ensures p < |d| && !KnownTag(d[p]) ==> r == Err(InvalidConstantPoolTag(d[p]))
    ensures r.Err? && p < |d| && KnownTag(d[p]) ==> r.error == UnexpectedEof
    ensures r.Ok? ==> p < |d| && TagOf(r.value.value) == d[p]
    ensures r.Ok? && d[p] == 1 ==>
      p + 3 <= |d| && p + 3 + BigEndian16(d, p + 1) <= |d| && r.value == Decoded(Utf8(d[p + 3..p + 3 + BigEndian16(d, p + 1)]), p + 3 + BigEndian16(d, p + 1))
    ensures r.Ok? && d[p] == 3 ==> p + 5 <= |d| && r.value == Decoded(Integer(Signed32(BigEndian32(d, p + 1))), p + 5)
    ensures r.Ok? && d[p] == 4 ==> p + 5 <= |d| && r.value == Decoded(Float(BigEndian32(d, p + 1)), p + 5)
    ensures r.Ok? && d[p] == 5 ==> p + 9 <= |d| && r.value == Decoded(Long(Signed64(Join64(BigEndian32(d, p + 1), BigEndian32(d, p + 5)))), p + 9)
    ensures r.Ok? && d[p] == 6 ==> p + 9 <= |d| && r.value == Decoded(Double(Join64(BigEndian32(d, p + 1), BigEndian32(d, p + 5))), p + 9)
    ensures r.Ok? && d[p] == 7 ==> p + 3 <= |d| && r.value == Decoded(Class(BigEndian16(d, p + 1)), p + 3)
    ensures r.Ok? && d[p] == 8 ==> p + 3 <= |d| && r.value == Decoded(String(BigEndian16(d, p + 1)), p + 3)
    ensures r.Ok? && d[p] == 9 ==> p + 5 <= |d| && r.value == Decoded(Fieldref(BigEndian16(d, p + 1), BigEndian16(d, p + 3)), p + 5)
    ensures r.Ok? && d[p] == 10 ==> p + 5 <= |d| && r.value == Decoded(Methodref(BigEndian16(d, p + 1), BigEndian16(d, p + 3)), p + 5)
    ensures r.Ok? && d[p] == 11 ==> p + 5 <= |d| && r.value == Decoded(InterfaceMethodref(BigEndian16(d, p + 1), BigEndian16(d, p + 3)), p + 5)
    ensures r.Ok? && d[p] == 12 ==> p + 5 <= |d| && r.value == Decoded(NameAndType(BigEndian16(d, p + 1), BigEndian16(d, p + 3)), p + 5)
    ensures r.Ok? && d[p] == 15 ==> p + 4 <= |d| && r.value == Decoded(MethodHandle(d[p + 1], BigEndian16(d, p + 2)), p + 4)
    ensures r.Ok? && d[p] == 16 ==> p + 3 <= |d| && r.value == Decoded(MethodType(BigEndian16(d, p + 1)), p + 3)
    ensures r.Ok? && d[p] == 17 ==> p + 5 <= |d| && r.value == Decoded(Dynamic(BigEndian16(d, p + 1), BigEndian16(d, p + 3)), p + 5)
    ensures r.Ok? && d[p] == 18 ==> p + 5 <= |d| && r.value == Decoded(InvokeDynamic(BigEndian16(d, p + 1), BigEndian16(d, p + 3)), p + 5)
    ensures r.Ok? && d[p] == 19 ==> p + 3 <= |d| && r.value == Decoded(Module(BigEndian16(d, p + 1)), p + 3)
    ensures r.Ok? && d[p] == 20 ==> p + 3 <= |d| && r.value == Decoded(Package(BigEndian16(d, p + 1)), p + 3)
  {
    var tag :- U1(d, p);
    var q := tag.next;
    match tag.value
    case 1 =>
      var len :- U2(d, q);
      var bs :- Take(d, len.next, len.value);
      TakeSlice(d, len.next, len.value);
      Ok(Decoded(Utf8(bs.value), bs.next))
    case 3 =>
      var v :- U4(d, q);
      Ok(Decoded(Integer(Signed32(v.value)), v.next))
    case 4 =>
      var v :- U4(d, q);
      Ok(Decoded(Float(v.value), v.next))
    case 5 =>
      var hi :- U4(d, q);
      var lo :- U4(d, hi.next);
      Ok(Decoded(Long(Signed64(Join64(hi.value, lo.value))), lo.next))
    case 6 =>
      var hi :- U4(d, q);
      var lo :- U4(d, hi.next);
      Ok(Decoded(Double(Join64(hi.value, lo.value)), lo.next))
    case 7 =>
      var i :- U2(d, q);
      Ok(Decoded(Class(i.value), i.next))
    case 8 =>
      var i :- U2(d, q);
      Ok(Decoded(String(i.value), i.next))
    case 9 =>
      var c :- U2(d, q);
      var n :- U2(d, c.next);
      Ok(Decoded(Fieldref(c.value, n.value), n.next))
    case 10 =>
      var c :- U2(d, q);
      var n :- U2(d, c.next);
      Ok(Decoded(Methodref(c.value, n.value), n.next))
    case 11 =>
      var c :- U2(d, q);
      var n :- U2(d, c.next);
      Ok(Decoded(InterfaceMethodref(c.value, n.value), n.next))
    case 12 =>
      var n :- U2(d, q);
      var t :- U2(d, n.next);
      Ok(Decoded(NameAndType(n.value, t.value), t.next))
    case 15 =>
      var k :- U1(d, q);
      var i :- U2(d, k.next);
      Ok(Decoded(MethodHandle(k.value, i.value), i.next))
    case 16 =>
      var i :- U2(d, q);
      Ok(Decoded(MethodType(i.value), i.next))
    case 17 =>
      var b :- U2(d, q);
      var n :- U2(d, b.next);
      Ok(Decoded(Dynamic(b.value, n.value), n.next))
    case 18 =>
      var b :- U2(d, q);
      var n :- U2(d, b.next);
      Ok(Decoded(InvokeDynamic(b.value, n.value), n.next))
    case 19 =>
      var i :- U2(d, q);
      Ok(Decoded(Module(i.value), i.next))
    case 20 =>
      var i :- U2(d, q);
      Ok(Decoded(Package(i.value), i.next))
    case _ =>
      Err(InvalidConstantPoolTag(tag.value))
  }

  /** The slots one entry takes: the entry itself, and an empty slot after a Long or Double. */
  function SlotsOf(e: CpInfo): (s: seq<Option<CpInfo>>)
    ensures |s| == (if IsWide(e) then 2 else 1) && s[0] == Some(e)
  {
    if IsWide(e) then [Some(e), None] else [Some(e)]
  }

  function Width(e: CpInfo): nat {
    if IsWide(e) then 2 else 1
  }

  /**
   * The pool decoder's loop from pool index i on, with `entries` the slots
   * filled so far: every entry takes one slot, a Long or Double two, the
   * second left empty; the loop stops once i reaches count.
   */
  function Slots(d: seq<u8>, p: nat, i: nat, count: nat, entries: seq<Option<CpInfo>>): (r: Result<Decoded<seq<Option<CpInfo>>>>)
    requires p <= |d| && i <= count + 1
    ensures Advances(r, d, p)
    ensures r.Ok? ==> |entries| + count - i <= |r.value.value| <= |entries| + count - i + 1
    ensures r.Ok? ==> |entries| <= |r.value.value| && r.value.value[..|entries|] == entries
    decreases count - i
  {
    if i >= count then Ok(Decoded(entries, p))
    else
      var e :- Entry(d, p);
      Slots(d, e.next, i + Width(e.value), count, entries + SlotsOf(e.value))
  }

  /** A u2 count, then the entries for indices 1 .. count - 1; index 0 is unused. */
  function PoolAt(d: seq<u8>, p: nat): (r: Result<Decoded<ConstantPool>>)
    requires p <= |d|
    ensures Advances(r, d, p)
    ensures r.Ok? ==> p + 2 <= |d| && |r.value.value.entries| >= 1 && r.value.value.entries[0] == None
    ensures r.Ok? ==> var count := BigEndian16(d, p);
                      count <= |r.value.value.entries| <= count + 1
  {
    var count :- U2(d, p);
    var slots :- Slots(d, count.next, 1, count.value, [None]);
    Ok(Decoded(ConstantPool(slots.value), slots.next))
  }

  /** Every slot that holds a Long or Double is followed by an empty slot. */
  ghost predicate HoleAfterWide(entries: seq<Option<CpInfo>>) {
    forall j | 0 <= j < |entries| && entries[j].Some? && IsWide(entries[j].value) ::
      j + 1 < |entries| && entries[j + 1] == None
  }

  /** Appending the slots of one entry keeps every wide entry followed by a hole. */
  lemma HoleAfterWideAppend(entries: seq<Option<CpInfo>>, e: CpInfo)
    requires HoleAfterWide(entries)
    ensures HoleAfterWide(entries + SlotsOf(e))
  {
    var s := entries + SlotsOf(e);
    forall j | 0 <= j < |s| && s[j].Some? && IsWide(s[j].value)
      ensures j + 1 < |s| && s[j + 1] == None
    {
      if j < |entries| {
        assert s[j] == entries[j] && s[j + 1] == entries[j + 1];
      } else {
        assert s[j] == SlotsOf(e)[j - |entries|];
      }
    }
  }

  lemma {:induction false} SlotsHoleAfterWide(d: seq<u8>, p: nat, i: nat, count: nat, entries: seq<Option<CpInfo>>)
    requires p <= |d| && i <= count + 1
    requires HoleAfterWide(entries)
    requires Slots(d, p, i, count, entries).Ok?
    ensures HoleAfterWide(Slots(d, p, i, count, entries).value.value)
    decreases count - i
  {
    if i < count {
      var e := Entry(d, p).value;
      HoleAfterWideAppend(entries, e.value);
      SlotsHoleAfterWide(d, e.next, i + Width(e.value), count, entries + SlotsOf(e.value));
    }
  }

  /**
   * In every decoded pool the slot after a Long or Double is empty, so looking
   * it up fails with InvalidConstantPoolIndex.
   */
  lemma WideEntryLeavesHole(d: seq<u8>, p: nat, j: u16)
    requires p <= |d|
    requires PoolAt(d, p).Ok?
    requires Get(PoolAt(d, p).value.value, j).Ok? && IsWide(Get(PoolAt(d, p).value.value, j).value)
    ensures j as int + 1 <= 0xFFFF
    ensures Get(PoolAt(d, p).value.value, j + 1) == Err(InvalidConstantPoolIndex(j + 1))
  {
    var count := U2(d, p).value;
    SlotsHoleAfterWide(d, count.next, 1, count.value, [None]);
  }

  /** Index 0 never resolves. */
  lemma GetZeroFails(cp: ConstantPool)
    ensures Get(cp, 0) == Err(InvalidConstantPoolIndex(0))
  {
  }

  /** The pool decoder's loop: `entries` starts as [None] and grows by one or two slots per entry. */
  method ParseConstantPool(r: Reader) returns (res: Result<ConstantPool>)
    requires r.Valid()
    modifies r
    ensures r.Valid() && Follows(PoolAt(r.data, old(r.pos)), res, r.pos)
  {
    var count :- r.ReadU2();
    ghost var start := r.pos;
    var entries: seq<Option<CpInfo>> := [None];
    var i: nat := 1;
    while i < count
      invariant i <= count as int + 1 && r.Valid()
      invariant Slots(r.data, start, 1, count, [None]) == Slots(r.data, r.pos, i, count, entries)
      decreases count as int - i
    {
      ghost var here := r.pos;
      var e := ParseEntry(r);
      if e.Err? {
        assert Slots(r.data, here, i, count, entries) == Err(e.error);
        return Err(e.error);
      }
      var entry := e.value;
      assert Slots(r.data, here, i, count, entries) == Slots(r.data, r.pos, i + Width(entry), count, entries + SlotsOf(entry));
      if IsWide(entry) {
        entries := entries + [Some(entry), None];
        i := i + 2;
      } else {
        entries := entries + [Some(entry)];
        i := i + 1;
      }
    }
    assert Slots(r.data, start, 1, count, [None]) == Ok(Decoded(entries, r.pos));
    return Ok(ConstantPool(entries));
  }

  /** One entry through the cursor: the tag, then the reads its payload needs. */
  method ParseEntry(r: Reader) returns (res: Result<CpInfo>)
    requires r.Valid()
    modifies r
    ensures r.Valid() && Follows(Entry(r.data, old(r.pos)), res, r.pos)
  {
    var tag :- r.ReadU1();
    match tag {
      case 1 =>
        var len :- r.ReadU2();
        var bs :- r.ReadBytes(len);
        return Ok(Utf8(bs));
      case 3 =>
        var v :- r.ReadU4();
        return Ok(Integer(Signed32(v)));
      case 4 =>
        var v :- r.ReadU4();
        return Ok(Float(v));
      case 5 =>
        var hi :- r.ReadU4();
        var lo :- r.ReadU4();
        return Ok(Long(Signed64(Join64(hi, lo))));
      case 6 =>
        var hi :- r.ReadU4();
        var lo :- r.ReadU4();
        return Ok(Double(Join64(hi, lo)));
      case 7 =>
        var i :- r.ReadU2();
        return Ok(Class(i));
      case 8 =>
        var i :- r.ReadU2();
        return Ok(String(i));
      case 9 =>
        var c :- r.ReadU2();
        var n :- r.ReadU2();
        return Ok(Fieldref(c, n));
      case 10 =>
        var c :- r.ReadU2();
        var n :- r.ReadU2();
        return Ok(Methodref(c, n));
      case 11 =>
        var c :- r.ReadU2();
        var n :- r.ReadU2();
        return Ok(InterfaceMethodref(c, n));
      case 12 =>
        var n :- r.ReadU2();
        var t :- r.ReadU2();
        return Ok(NameAndType(n, t));
      case 15 =>
        var k :- r.ReadU1();
        var i :- r.ReadU2();
        return Ok(MethodHandle(k, i));
      case 16 =>
        var i :- r.ReadU2();
        return Ok(MethodType(i));
      case 17 =>
        var b :- r.ReadU2();
        var n :- r.ReadU2();
        return Ok(Dynamic(b, n));
      case 18 =>
        var b :- r.ReadU2();
        var n :- r.ReadU2();
        return Ok(InvokeDynamic(b, n));
      case 19 =>
        var i :- r.ReadU2();
        return Ok(Module(i));
      case 20 =>
        var i :- r.ReadU2();
        return Ok(Package(i));
      case _ =>
        return Err(InvalidConstantPoolTag(tag));
    }
  }
}
