/**
 * The top-level class file decoder (section 4.1 of the Java Virtual Machine
 * Specification; src/classfile.rs, `ClassFile::parse`, `parse_field`,
 * `parse_method`).
 *
 * A class file is the magic number 0xCAFEBABE, the minor and major
 * versions, the constant pool, the access flags, this_class, super_class,
 * the interface indices, the fields, the methods and the class attributes,
 * in that order. The versions are kept as read, with no range check, and
 * bytes after the last class attribute are ignored.
 */
module ClassFiles {
  import opened Bytes
  import opened Results
  import opened Cursor
  import opened AttributeTypes
  import Pool
  import opened Attributes

  /**
   * A field_info or method_info: access flags, name and descriptor indices,
   * and the member's attributes. Fields and methods share this layout.
   */
  datatype MemberInfo = MemberInfo(accessFlags: u16, nameIndex: u16, descriptorIndex: u16, attributes: seq<AttributeInfo>)

  type FieldInfo = MemberInfo
  type MethodInfo = MemberInfo

  datatype ClassFile = ClassFile(
    minorVersion: u16,
    majorVersion: u16,
    constantPool: Pool.ConstantPool,
    accessFlags: u16,
    thisClass: u16,
    superClass: u16,
    interfaces: seq<u16>,
    fields: seq<FieldInfo>,
    methods: seq<MethodInfo>,
    attributes: seq<AttributeInfo>)

  const Magic: u32 := 0xCAFEBABE

  /** One field_info or method_info. */
  function MemberAt(d: seq<u8>, p: nat, cp: Pool.ConstantPool): (r: Result<Decoded<MemberInfo>>)
    requires p <= |d|
    ensures Advances(r, d, p)
    ensures p + 8 > |d| ==> r == Err(UnexpectedEof)
    ensures r.Ok? ==> p + 8 <= |d|
                      && r.value.value.accessFlags == BigEndian16(d, p)
                      && r.value.value.nameIndex == BigEndian16(d, p + 2)
                      && r.value.value.descriptorIndex == BigEndian16(d, p + 4)
                      && |r.value.value.attributes| == BigEndian16(d, p + 6)
  {
    var accessFlags :- U2(d, p);
    var nameIndex :- U2(d, accessFlags.next);
    var descriptorIndex :- U2(d, nameIndex.next);
    var attributes :- AttributesAt(d, descriptorIndex.next, cp);
    Ok(Decoded(MemberInfo(accessFlags.value, nameIndex.value, descriptorIndex.value, attributes.value), attributes.next))
  }

  /** The members still to read after `acc`: n more. */
  function MemberList(d: seq<u8>, p: nat, n: nat, cp: Pool.ConstantPool, acc: seq<MemberInfo>): (r: Result<Decoded<seq<MemberInfo>>>)
    requires p <= |d|
    ensures Advances(r, d, p)
    ensures r.Ok? ==> |r.value.value| == |acc| + n && r.value.value[..|acc|] == acc
    decreases n
  {
    if n == 0 then Ok(Decoded(acc, p))
    else
      var m :- MemberAt(d, p, cp);
      MemberList(d, m.next, n - 1, cp, acc + [m.value])
  }

  /** fields_count or methods_count, and that many members. */
  function MembersAt(d: seq<u8>, p: nat, cp: Pool.ConstantPool): (r: Result<Decoded<seq<MemberInfo>>>)
    requires p <= |d|
    ensures Advances(r, d, p)
    ensures p + 2 > |d| ==> r == Err(UnexpectedEof)
    ensures r.Ok? ==> p + 2 <= |d| && |r.value.value| == BigEndian16(d, p)
  {
    var n :- U2(d, p);
    MemberList(d, n.next, n.value, cp, [])
  }

  /**
   * The whole class file. A first u4 other than 0xCAFEBABE is rejected with
   * the value read; the constant pool decoded at byte 8 is the one used to
   * resolve every attribute name after it.
   */
  function Decode(d: seq<u8>): (r: Result<ClassFile>)
    ensures |d| < 4 ==> r == Err(UnexpectedEof)
    ensures 4 <= |d| && BigEndian32(d, 0) != Magic ==> r == Err(InvalidMagic(BigEndian32(d, 0)))
    ensures r.Ok? ==> 8 <= |d| && BigEndian32(d, 0) == Magic
                      && r.value.minorVersion == BigEndian16(d, 4)
                      && r.value.majorVersion == BigEndian16(d, 6)
  {
    var magic :- U4(d, 0);
    if magic.value != Magic then Err(InvalidMagic(magic.value))
    else
      var minor :- U2(d, magic.next);
      var major :- U2(d, minor.next);
      var pool :- Pool.PoolAt(d, major.next);
      var accessFlags :- U2(d, pool.next);
      var thisClass :- U2(d, accessFlags.next);
      var superClass :- U2(d, thisClass.next);
      var interfaces :- IndexTable(d, superClass.next);
      var fields :- MembersAt(d, interfaces.next, pool.value);
      var methods :- MembersAt(d, fields.next, pool.value);
      var attributes :- AttributesAt(d, methods.next, pool.value);
      Ok(ClassFile(minor.value, major.value, pool.value, accessFlags.value, thisClass.value, superClass.value,
                   interfaces.value, fields.value, methods.value, attributes.value))
  }

  /** parse_field and parse_method: flags, name, descriptor, attributes. */
  method ParseMember(r: Reader, cp: Pool.ConstantPool) returns (res: Result<MemberInfo>)
    requires r.Valid()
    modifies r
    ensures r.Valid() && Follows(MemberAt(r.data, old(r.pos), cp), res, r.pos)
  {
    var accessFlags :- r.ReadU2();
    var nameIndex :- r.ReadU2();
    var descriptorIndex :- r.ReadU2();
    var attributes :- ParseAttributes(r, cp);
    return Ok(MemberInfo(accessFlags, nameIndex, descriptorIndex, attributes));
  }

  /** The fields or methods loop: a u2 count, then one member per iteration. */
  method ParseMembers(r: Reader, cp: Pool.ConstantPool) returns (res: Result<seq<MemberInfo>>)
    requires r.Valid()
    modifies r
    ensures r.Valid() && Follows(MembersAt(r.data, old(r.pos), cp), res, r.pos)
  {
    var n :- r.ReadU2();
    ghost var start := r.pos;
    var members: seq<MemberInfo> := [];
    var i := 0;
    while i < n
      invariant i <= n && r.Valid()
      invariant MemberList(r.data, start, n, cp, []) == MemberList(r.data, r.pos, n - i, cp, members)
    {
      var m :- ParseMember(r, cp);
      members := members + [m];
      i := i + 1;
    }
    return Ok(members);
  }

  /** ClassFile::parse: the imperative decoder computes exactly Decode. */
  method Parse(bytes: seq<u8>) returns (res: Result<ClassFile>)
    ensures res == Decode(bytes)
  {
    var r := new Reader(bytes);
    var magic :- r.ReadU4();
    if magic != Magic {
      return Err(InvalidMagic(magic));
    }
    var minorVersion :- r.ReadU2();
    var majorVersion :- r.ReadU2();
    var constantPool :- Pool.ParseConstantPool(r);
    var accessFlags :- r.ReadU2();
    var thisClass :- r.ReadU2();
    var superClass :- r.ReadU2();
    var interfaces :- ReadIndexTable(r);
    var fields :- ParseMembers(r, constantPool);
    var methods :- ParseMembers(r, constantPool);
    var attributes :- ParseAttributes(r, constantPool);
    return Ok(ClassFile(minorVersion, majorVersion, constantPool, accessFlags, thisClass, superClass,
                        interfaces, fields, methods, attributes));
  }

  /**
   * The smallest well-formed class: version 52.0, a four-entry constant
   * pool (Utf8 "Test", Utf8 "java/lang/Object", Class #1, Class #2), public
   * super flags 0x0021, this_class #3, super_class #4 and no interfaces,
   * fields, methods or attributes.
   */
  const MinimalClass: seq<u8> :=
    [0xCA, 0xFE, 0xBA, 0xBE, 0x00, 0x00, 0x00, 0x34, 0x00, 0x05]  // magic, minor 0, major 52, constant_pool_count 5
    + [0x01, 0x00, 0x04] + TestName                               // #1 Utf8 "Test"
    + [0x01, 0x00, 0x10] + ObjectName                             // #2 Utf8 "java/lang/Object"
    + [0x07, 0x00, 0x01, 0x07, 0x00, 0x02]                        // #3 Class #1, #4 Class #2
    + [0x00, 0x21, 0x00, 0x03, 0x00, 0x04]                        // access_flags, this_class, super_class
    + [0x00, 0x00, 0x00, 0x00, 0x00, 0x00, 0x00, 0x00]            // no interfaces, fields, methods, attributes

  /** The bytes of "Test" and "java/lang/Object". */
  const TestName: seq<u8> := [0x54, 0x65, 0x73, 0x74]
  const ObjectName: seq<u8> := [
    0x6A, 0x61, 0x76, 0x61, 0x2F, 0x6C, 0x61, 0x6E, 0x67, 0x2F, 0x4F, 0x62,
    0x6A, 0x65, 0x63, 0x74]

  /** The constant pool of MinimalClass, slot by slot. */
  const MinimalPool: Pool.ConstantPool :=
    Pool.ConstantPool([Pool.None, Pool.Some(Pool.Utf8(TestName)), Pool.Some(Pool.Utf8(ObjectName)),
                       Pool.Some(Pool.Class(1)), Pool.Some(Pool.Class(2))])

  /** The four entries of MinimalClass, each with the offset after it. */
  lemma MinimalEntries()
    ensures Pool.Entry(MinimalClass, 10) == Ok(Decoded(Pool.Utf8(TestName), 17))
    ensures Pool.Entry(MinimalClass, 17) == Ok(Decoded(Pool.Utf8(ObjectName), 36))
    ensures Pool.Entry(MinimalClass, 36) == Ok(Decoded(Pool.Class(1), 39))
    ensures Pool.Entry(MinimalClass, 39) == Ok(Decoded(Pool.Class(2), 42))
  {
    var d := MinimalClass;
    assert |d| == 56 && d[13..17] == TestName && d[20..36] == ObjectName;
    assert d[10] == 1 && BigEndian16(d, 11) == 4 && d[17] == 1 && BigEndian16(d, 18) == 16;
    assert d[36] == 7 && BigEndian16(d, 37) == 1 && d[39] == 7 && BigEndian16(d, 40) == 2;
  }

  /** The constant pool of MinimalClass starts at byte 8 and ends at byte 42. */
  lemma MinimalPoolDecodes()
    ensures Pool.PoolAt(MinimalClass, 8) == Ok(Decoded(MinimalPool, 42))
  {
    var d := MinimalClass;
    MinimalEntries();
    var slots := MinimalPool.entries;
    assert Pool.Slots(d, 42, 5, 5, slots) == Ok(Decoded(slots, 42));
    assert slots[..4] + [Pool.Some(Pool.Class(2))] == slots;
    assert Pool.Slots(d, 39, 4, 5, slots[..4]) == Ok(Decoded(slots, 42));
    assert slots[..3] + [Pool.Some(Pool.Class(1))] == slots[..4];
    assert Pool.Slots(d, 36, 3, 5, slots[..3]) == Ok(Decoded(slots, 42));
    assert slots[..2] + [Pool.Some(Pool.Utf8(ObjectName))] == slots[..3];
    assert Pool.Slots(d, 17, 2, 5, slots[..2]) == Ok(Decoded(slots, 42));
    assert slots[..1] + [Pool.Some(Pool.Utf8(TestName))] == slots[..2];
    assert Pool.Slots(d, 10, 1, 5, slots[..1]) == Ok(Decoded(slots, 42));
    assert slots[..1] == [Pool.None];
    assert BigEndian16(d, 8) == 5 && U2(d, 8) == Ok(Decoded(5, 10));
  }

  /** After the pool of MinimalClass: no interfaces, fields, methods or attributes, and nothing after them. */
  lemma MinimalTailDecodes()
    ensures IndexTable(MinimalClass, 48) == Ok(Decoded([], 50))
    ensures MembersAt(MinimalClass, 50, MinimalPool) == Ok(Decoded([], 52))
    ensures MembersAt(MinimalClass, 52, MinimalPool) == Ok(Decoded([], 54))
    ensures AttributesAt(MinimalClass, 54, MinimalPool) == Ok(Decoded([], 56))
  {
    var d := MinimalClass;
    assert |d| == 56 && BigEndian16(d, 48) == 0 && BigEndian16(d, 50) == 0;
    assert BigEndian16(d, 52) == 0 && BigEndian16(d, 54) == 0;
  }

  /**
   * The minimal class decodes, with the pool laid out slot by slot and
   * this_class and super_class resolving through Class entries to the
   * names "Test" and "java/lang/Object".
   */
  lemma MinimalClassDecodes()
    ensures Decode(MinimalClass).Ok?
    ensures var c := Decode(MinimalClass).value;
      && c.minorVersion == 0 && c.majorVersion == 52
      && c.constantPool == MinimalPool
      && c.accessFlags == 0x21 && c.thisClass == 3 && c.superClass == 4
      && c.interfaces == [] && c.fields == [] && c.methods == [] && c.attributes == []
      && Pool.Get(c.constantPool, c.thisClass) == Ok(Pool.Class(1))
      && Pool.GetUtf8(c.constantPool, 1) == Ok(TestName)
      && Pool.Get(c.constantPool, c.superClass) == Ok(Pool.Class(2))
      && Pool.GetUtf8(c.constantPool, 2) == Ok(ObjectName)
  {
    var d := MinimalClass;
    MinimalPoolDecodes();
    MinimalTailDecodes();
    assert BigEndian32(d, 0) == Magic && BigEndian16(d, 4) == 0 && BigEndian16(d, 6) == 52;
    assert BigEndian16(d, 42) == 0x21 && BigEndian16(d, 44) == 3 && BigEndian16(d, 46) == 4;
  }
}
