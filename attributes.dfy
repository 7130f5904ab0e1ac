/**
 * Attribute decoding (section 4.7 of the Java Virtual Machine
 * Specification; src/classfile.rs, `parse_attributes`,
 * `parse_code_attribute`).
 *
 * Every attribute is a u2 name index, a u4 length and that many bytes. The
 * name is resolved through the constant pool before the body is read; the
 * body is decoded by a fresh cursor over exactly those bytes, chosen by the
 * name, and must consume all of them. Code and Record bodies hold attribute
 * lists of their own, so the grammar is recursive; each nested list lies
 * strictly inside the bytes of the attribute that holds it.
 */
module Attributes {
  import opened Bytes
  import opened Results
  import opened Cursor
  import opened AttributeTypes
  import Pool
  import opened StackMap
  import opened Annotations
  import opened TypeAnnotations
  import opened ModuleAttributes

  /** exception_table entry of a Code attribute: start_pc, end_pc, handler_pc, catch_type. */
  function ExceptionEntryAt(d: seq<u8>, p: nat): (r: Result<Decoded<ExceptionTableEntry>>)
    requires p <= |d|
    ensures Advances(r, d, p)
    ensures r.Ok? <==> p + 8 <= |d|
    ensures r.Ok? ==> r.value == Decoded(ExceptionTableEntry(BigEndian16(d, p), BigEndian16(d, p + 2), BigEndian16(d, p + 4), BigEndian16(d, p + 6)), p + 8)
    ensures r.Err? ==> r.error == UnexpectedEof
  {
    var s :- U2(d, p);
    var e :- U2(d, s.next);
    var h :- U2(d, e.next);
    var c :- U2(d, h.next);
    Ok(Decoded(ExceptionTableEntry(s.value, e.value, h.value, c.value), c.next))
  }

  /** InnerClasses entry: inner class, outer class, inner name, access flags. */
  function InnerClassAt(d: seq<u8>, p: nat): (r: Result<Decoded<InnerClassInfo>>)
    requires p <= |d|
    ensures Advances(r, d, p)
    ensures r.Ok? <==> p + 8 <= |d|
    ensures r.Ok? ==> r.value == Decoded(InnerClassInfo(BigEndian16(d, p), BigEndian16(d, p + 2), BigEndian16(d, p + 4), BigEndian16(d, p + 6)), p + 8)
    ensures r.Err? ==> r.error == UnexpectedEof
  {
    var i :- U2(d, p);
    var o :- U2(d, i.next);
    var n :- U2(d, o.next);
    var f :- U2(d, n.next);
    Ok(Decoded(InnerClassInfo(i.value, o.value, n.value, f.value), f.next))
  }

  /** LineNumberTable entry: start_pc, line_number. */
  function LineNumberAt(d: seq<u8>, p: nat): (r: Result<Decoded<LineNumberEntry>>)
    requires p <= |d|
    ensures Advances(r, d, p)
    ensures r.Ok? <==> p + 4 <= |d|
    ensures r.Ok? ==> r.value == Decoded(LineNumberEntry(BigEndian16(d, p), BigEndian16(d, p + 2)), p + 4)
    ensures r.Err? ==> r.error == UnexpectedEof
  {
    var s :- U2(d, p);
    var l :- U2(d, s.next);
    Ok(Decoded(LineNumberEntry(s.value, l.value), l.next))
  }

  /** LocalVariableTable entry: start_pc, length, name, descriptor, index. */
  function LocalVariableAt(d: seq<u8>, p: nat): (r: Result<Decoded<LocalVariableTableEntry>>)
    requires p <= |d|
    ensures Advances(r, d, p)
    ensures r.Ok? <==> p + 10 <= |d|
    ensures r.Ok? ==> r.value == Decoded(LocalVariableTableEntry(BigEndian16(d, p), BigEndian16(d, p + 2), BigEndian16(d, p + 4), BigEndian16(d, p + 6), BigEndian16(d, p + 8)), p + 10)
    ensures r.Err? ==> r.error == UnexpectedEof
  {
    var s :- U2(d, p);
    var l :- U2(d, s.next);
    var n :- U2(d, l.next);
    var t :- U2(d, n.next);
    var i :- U2(d, t.next);
    Ok(Decoded(LocalVariableTableEntry(s.value, l.value, n.value, t.value, i.value), i.next))
  }

  /** LocalVariableTypeTable entry: start_pc, length, name, signature, index. */
  function LocalVariableTypeAt(d: seq<u8>, p: nat): (r: Result<Decoded<LocalVariableTypeTableEntry>>)
    requires p <= |d|
    ensures Advances(r, d, p)
    ensures r.Ok? <==> p + 10 <= |d|
    ensures r.Ok? ==> r.value == Decoded(LocalVariableTypeTableEntry(BigEndian16(d, p), BigEndian16(d, p + 2), BigEndian16(d, p + 4), BigEndian16(d, p + 6), BigEndian16(d, p + 8)), p + 10)
    ensures r.Err? ==> r.error == UnexpectedEof
  {
    var s :- U2(d, p);
    var l :- U2(d, s.next);
    var n :- U2(d, l.next);
    var t :- U2(d, n.next);
    var i :- U2(d, t.next);
    Ok(Decoded(LocalVariableTypeTableEntry(s.value, l.value, n.value, t.value, i.value), i.next))
  }

  /** BootstrapMethods entry: a method handle index, then a u2-counted argument table. */
  function BootstrapMethodAt(d: seq<u8>, p: nat): (r: Result<Decoded<BootstrapMethod>>)
    requires p <= |d|
    ensures Advances(r, d, p)
    ensures r.Ok? <==> p + 4 <= |d| && p + 4 + 2 * BigEndian16(d, p + 2) <= |d|
    ensures r.Ok? ==> r.value.next == p + 4 + 2 * BigEndian16(d, p + 2)
                      && r.value.value.bootstrapMethodRef == BigEndian16(d, p)
                      && |r.value.value.bootstrapArguments| == BigEndian16(d, p + 2)
                      && forall i | 0 <= i < BigEndian16(d, p + 2) :: r.value.value.bootstrapArguments[i] == BigEndian16(d, p + 4 + 2 * i)
    ensures r.Err? ==> r.error == UnexpectedEof
  {
    var m :- U2(d, p);
    var args :- IndexTable(d, m.next);
    Ok(Decoded(BootstrapMethod(m.value, args.value), args.next))
  }

  /** MethodParameters entry: name index, access flags. */
  function MethodParameterAt(d: seq<u8>, p: nat): (r: Result<Decoded<MethodParameter>>)
    requires p <= |d|
    ensures Advances(r, d, p)
    ensures r.Ok? <==> p + 4 <= |d|
    ensures r.Ok? ==> r.value == Decoded(MethodParameter(BigEndian16(d, p), BigEndian16(d, p + 2)), p + 4)
    ensures r.Err? ==> r.error == UnexpectedEof
  {
    var n :- U2(d, p);
    var f :- U2(d, n.next);
    Ok(Decoded(MethodParameter(n.value, f.value), f.next))
  }

  /** ModuleHashes entry: a module name index, then a u2-length hash kept verbatim. */
  function ModuleHashAt(d: seq<u8>, p: nat): (r: Result<Decoded<ModuleHash>>)
    requires p <= |d|
    ensures Advances(r, d, p)
    ensures r.Ok? <==> p + 4 <= |d| && p + 4 + BigEndian16(d, p + 2) <= |d|
    ensures r.Ok? ==> r.value == Decoded(ModuleHash(BigEndian16(d, p), d[p + 4..p + 4 + BigEndian16(d, p + 2)]), p + 4 + BigEndian16(d, p + 2))
    ensures r.Err? ==> r.error == UnexpectedEof
  {
    var n :- U2(d, p);
    var len :- U2(d, n.next);
    var hash :- Take(d, len.next, len.value);
    Ok(Decoded(ModuleHash(n.value, hash.value), hash.next))
  }

  /** What an attribute name selects: one kind per decoder, OtherKind for every other name. */
  datatype AttributeKind =
    ConstantValueKind | CodeKind | StackMapTableKind | ExceptionsKind | InnerClassesKind | EnclosingMethodKind | SyntheticKind | SignatureKind | SourceFileKind | SourceDebugExtensionKind | LineNumberTableKind | LocalVariableTableKind | LocalVariableTypeTableKind | DeprecatedKind | RuntimeVisibleAnnotationsKind | RuntimeInvisibleAnnotationsKind | RuntimeVisibleParameterAnnotationsKind | RuntimeInvisibleParameterAnnotationsKind | RuntimeVisibleTypeAnnotationsKind | RuntimeInvisibleTypeAnnotationsKind | AnnotationDefaultKind | BootstrapMethodsKind | MethodParametersKind | ModuleKind | ModulePackagesKind | ModuleMainClassKind | ModuleHashesKind | ModuleTargetKind | ModuleResolutionKind | NestHostKind | NestMembersKind | RecordKind | PermittedSubclassesKind | OtherKind

  /** The attribute names with a decoder of their own, each with the kind it selects. */
  const KnownAttributes: seq<(string, AttributeKind)> := [
      ("ConstantValue", ConstantValueKind),
      ("Code", CodeKind),
      ("StackMapTable", StackMapTableKind),
      ("Exceptions", ExceptionsKind),
      ("InnerClasses", InnerClassesKind),
      ("EnclosingMethod", EnclosingMethodKind),
      ("Synthetic", SyntheticKind),
      ("Signature", SignatureKind),
      ("SourceFile", SourceFileKind),
      ("SourceDebugExtension", SourceDebugExtensionKind),
      ("LineNumberTable", LineNumberTableKind),
      ("LocalVariableTable", LocalVariableTableKind),
      ("LocalVariableTypeTable", LocalVariableTypeTableKind),
      ("Deprecated", DeprecatedKind),
      ("RuntimeVisibleAnnotations", RuntimeVisibleAnnotationsKind),
      ("RuntimeInvisibleAnnotations", RuntimeInvisibleAnnotationsKind),
      ("RuntimeVisibleParameterAnnotations", RuntimeVisibleParameterAnnotationsKind),
      ("RuntimeInvisibleParameterAnnotations", RuntimeInvisibleParameterAnnotationsKind),
      ("RuntimeVisibleTypeAnnotations", RuntimeVisibleTypeAnnotationsKind),
      ("RuntimeInvisibleTypeAnnotations", RuntimeInvisibleTypeAnnotationsKind),
      ("AnnotationDefault", AnnotationDefaultKind),
      ("BootstrapMethods", BootstrapMethodsKind),
      ("MethodParameters", MethodParametersKind),
      ("Module", ModuleKind),
      ("ModulePackages", ModulePackagesKind),
      ("ModuleMainClass", ModuleMainClassKind),
      ("ModuleHashes", ModuleHashesKind),
      ("ModuleTarget", ModuleTargetKind),
      ("ModuleResolution", ModuleResolutionKind),
      ("NestHost", NestHostKind),
      ("NestMembers", NestMembersKind),
      ("Record", RecordKind),
      ("PermittedSubclasses", PermittedSubclassesKind)
    ]

  /** The kind of the first entry of KnownAttributes at or after `i` that carries `name`; OtherKind if none does. */
  function KindFrom(name: string, i: nat): AttributeKind
    decreases |KnownAttributes| - i
  {
    if i >= |KnownAttributes| then OtherKind
    else if KnownAttributes[i].0 == name then KnownAttributes[i].1
    else KindFrom(name, i + 1)
  }

  /** The kind that the attribute name selects. */
  function KindOf(name: string): AttributeKind {
    KindFrom(name, 0)
  }

  /** The attribute names with a decoder of their own: those that KnownAttributes lists. */
  predicate KnownAttributeName(name: string) {
    exists j | 0 <= j < |KnownAttributes| :: KnownAttributes[j].0 == name
  }

  /** The kind of a decoded attribute; an attribute kept raw is OtherKind. */
  function Kind(a: AttributeInfo): AttributeKind {
    match a
    case ConstantValue(_) => ConstantValueKind
    case Code(_) => CodeKind
    case StackMapTable(_) => StackMapTableKind
    case Exceptions(_) => ExceptionsKind
    case InnerClasses(_) => InnerClassesKind
    case EnclosingMethod(_, _) => EnclosingMethodKind
    case Synthetic => SyntheticKind
    case Signature(_) => SignatureKind
    case SourceFile(_) => SourceFileKind
    case SourceDebugExtension(_) => SourceDebugExtensionKind
    case LineNumberTable(_) => LineNumberTableKind
    case LocalVariableTable(_) => LocalVariableTableKind
    case LocalVariableTypeTable(_) => LocalVariableTypeTableKind
    case Deprecated => DeprecatedKind
    case RuntimeVisibleAnnotations(_) => RuntimeVisibleAnnotationsKind
    case RuntimeInvisibleAnnotations(_) => RuntimeInvisibleAnnotationsKind
    case RuntimeVisibleParameterAnnotations(_) => RuntimeVisibleParameterAnnotationsKind
    case RuntimeInvisibleParameterAnnotations(_) => RuntimeInvisibleParameterAnnotationsKind
    case RuntimeVisibleTypeAnnotations(_) => RuntimeVisibleTypeAnnotationsKind
    case RuntimeInvisibleTypeAnnotations(_) => RuntimeInvisibleTypeAnnotationsKind
    case AnnotationDefault(_) => AnnotationDefaultKind
    case BootstrapMethods(_) => BootstrapMethodsKind
    case MethodParameters(_) => MethodParametersKind
    case Module(_) => ModuleKind
    case ModulePackages(_) => ModulePackagesKind
    case ModuleMainClass(_) => ModuleMainClassKind
    case ModuleHashes(_, _) => ModuleHashesKind
    case ModuleTarget(_) => ModuleTargetKind
    case ModuleResolution(_) => ModuleResolutionKind
    case NestHost(_) => NestHostKind
    case NestMembers(_) => NestMembersKind
    case Record(_) => RecordKind
    case PermittedSubclasses(_) => PermittedSubclassesKind
    case Unknown(_, _) => OtherKind
  }

  /**
   * The body that the attribute name selects, read from the start of the
   * attribute's own bytes `d`. The name dispatch is split in three: the
   * bodies of a fixed size (a few u2 fields, or none) here, then
   * TableBody, then NestedBody.
   */
  function AttributeBody(d: seq<u8>, kind: AttributeKind, name: string, cp: Pool.ConstantPool): (r: Result<Decoded<AttributeInfo>>)
    ensures Advances(r, d, 0)
    decreases RemainingAt(d, 0), 4
  {
    if kind == ConstantValueKind then
      var i :- U2(d, 0);
      Ok(Decoded(ConstantValue(i.value), i.next))
    else if kind == EnclosingMethodKind then
      var c :- U2(d, 0);
      var m :- U2(d, c.next);
      Ok(Decoded(EnclosingMethod(c.value, m.value), m.next))
    else if kind == SyntheticKind then
      Ok(Decoded(Synthetic, 0))
    else if kind == SignatureKind then
      var i :- U2(d, 0);
      Ok(Decoded(Signature(i.value), i.next))
    else if kind == SourceFileKind then
      var i :- U2(d, 0);
      Ok(Decoded(SourceFile(i.value), i.next))
    else if kind == DeprecatedKind then
      Ok(Decoded(Deprecated, 0))
    else if kind == ModuleMainClassKind then
      var i :- U2(d, 0);
      Ok(Decoded(ModuleMainClass(i.value), i.next))
    else if kind == ModuleTargetKind then
      var i :- U2(d, 0);
      Ok(Decoded(ModuleTarget(i.value), i.next))
    else if kind == ModuleResolutionKind then
      var f :- U2(d, 0);
      Ok(Decoded(ModuleResolution(f.value), f.next))
    else if kind == NestHostKind then
      var i :- U2(d, 0);
      Ok(Decoded(NestHost(i.value), i.next))
    else
      TableBody(d, kind, name, cp)
  }

  /** The bodies that are a count followed by that many records; any other name goes on to NestedBody. */
  function TableBody(d: seq<u8>, kind: AttributeKind, name: string, cp: Pool.ConstantPool): (r: Result<Decoded<AttributeInfo>>)
    ensures Advances(r, d, 0)
    decreases RemainingAt(d, 0), 3
  {
    if kind == ExceptionsKind then
      var table :- IndexTable(d, 0);
      Ok(Decoded(Exceptions(table.value), table.next))
    else if kind == InnerClassesKind then
      var classes :- Table(InnerClassAt, d, 0);
      Ok(Decoded(InnerClasses(classes.value), classes.next))
    else if kind == LineNumberTableKind then
      var entries :- Table(LineNumberAt, d, 0);
      Ok(Decoded(LineNumberTable(entries.value), entries.next))
    else if kind == LocalVariableTableKind then
      var entries :- Table(LocalVariableAt, d, 0);
      Ok(Decoded(LocalVariableTable(entries.value), entries.next))
    else if kind == LocalVariableTypeTableKind then
      var entries :- Table(LocalVariableTypeAt, d, 0);
      Ok(Decoded(LocalVariableTypeTable(entries.value), entries.next))
    else if kind == BootstrapMethodsKind then
      var methods :- Table(BootstrapMethodAt, d, 0);
      Ok(Decoded(BootstrapMethods(methods.value), methods.next))
    else if kind == MethodParametersKind then
      var n :- U1(d, 0);
      var parameters :- Repeat(MethodParameterAt, d, n.next, n.value);
      Ok(Decoded(MethodParameters(parameters.value), parameters.next))
    else if kind == ModulePackagesKind then
      var packages :- IndexTable(d, 0);
      Ok(Decoded(ModulePackages(packages.value), packages.next))
    else if kind == ModuleHashesKind then
      var alg :- U2(d, 0);
      var modules :- Table(ModuleHashAt, d, alg.next);
      Ok(Decoded(ModuleHashes(alg.value, modules.value), modules.next))
    else if kind == NestMembersKind then
      var classes :- IndexTable(d, 0);
      Ok(Decoded(NestMembers(classes.value), classes.next))
    else if kind == PermittedSubclassesKind then
      var classes :- IndexTable(d, 0);
      Ok(Decoded(PermittedSubclasses(classes.value), classes.next))
    else
      NestedBody(d, kind, name, cp)
  }

  /**
   * The bodies decoded by a grammar of their own: Code and Record, which
   * hold attribute lists of their own, stack map frames, annotations and the
   * Module attribute; SourceDebugExtension is kept as bytes, and a name the
   * decoder does not know keeps all of `d`.
   */
  function NestedBody(d: seq<u8>, kind: AttributeKind, name: string, cp: Pool.ConstantPool): (r: Result<Decoded<AttributeInfo>>)
    ensures Advances(r, d, 0)
    decreases RemainingAt(d, 0), 2
  {
    if kind == CodeKind then
      var c :- CodeBody(d, 0, cp);
      Ok(Decoded(Code(c.value), c.next))
    else if kind == RecordKind then
      var components :- ComponentsAt(d, 0, cp);
      Ok(Decoded(Record(components.value), components.next))
    else if kind == StackMapTableKind then
      var frames :- StackMapTableAt(d, 0);
      Ok(Decoded(StackMapTable(frames.value), frames.next))
    else if kind == SourceDebugExtensionKind then
      var bs := Take(d, 0, |d|).value;
      Ok(Decoded(SourceDebugExtension(bs.value), bs.next))
    else if kind == RuntimeVisibleAnnotationsKind then
      var a :- AnnotationsAt(d, 0);
      Ok(Decoded(RuntimeVisibleAnnotations(a.value), a.next))
    else if kind == RuntimeInvisibleAnnotationsKind then
      var a :- AnnotationsAt(d, 0);
      Ok(Decoded(RuntimeInvisibleAnnotations(a.value), a.next))
    else if kind == RuntimeVisibleParameterAnnotationsKind then
      var a :- ParameterAnnotationsAt(d, 0);
      Ok(Decoded(RuntimeVisibleParameterAnnotations(a.value), a.next))
    else if kind == RuntimeInvisibleParameterAnnotationsKind then
      var a :- ParameterAnnotationsAt(d, 0);
      Ok(Decoded(RuntimeInvisibleParameterAnnotations(a.value), a.next))
    else if kind == RuntimeVisibleTypeAnnotationsKind then
      var a :- TypeAnnotationsAt(d, 0);
      Ok(Decoded(RuntimeVisibleTypeAnnotations(a.value), a.next))
    else if kind == RuntimeInvisibleTypeAnnotationsKind then
      var a :- TypeAnnotationsAt(d, 0);
      Ok(Decoded(RuntimeInvisibleTypeAnnotations(a.value), a.next))
    else if kind == AnnotationDefaultKind then
      var v :- ElementValueAt(d, 0);
      Ok(Decoded(AnnotationDefault(v.value), v.next))
    else if kind == ModuleKind then
      var m :- ModuleAt(d, 0);
      Ok(Decoded(Module(m.value), m.next))
    else
      var rest := Take(d, 0, |d|).value;
      Ok(Decoded(Unknown(name, d), rest.next))
  }

  /** The attributes still to read after `acc`: n more. */
  function AttrList(d: seq<u8>, p: nat, n: nat, cp: Pool.ConstantPool, acc: seq<AttributeInfo>): (r: Result<Decoded<seq<AttributeInfo>>>)
    requires p <= |d|
    ensures Advances(r, d, p)
    ensures r.Ok? ==> |r.value.value| == |acc| + n
    decreases RemainingAt(d, p), n
  {
    if n == 0 then Ok(Decoded(acc, p))
    else
      var a :- AttributeAt(d, p, cp);
      AttrList(d, a.next, n - 1, cp, acc + [a.value])
  }

  /** attributes_count and the attributes after it. */
  function AttributesAt(d: seq<u8>, p: nat, cp: Pool.ConstantPool): (r: Result<Decoded<seq<AttributeInfo>>>)
    requires p <= |d|
    ensures Advances(r, d, p)
    ensures r.Ok? ==> p + 2 <= |d| && |r.value.value| == BigEndian16(d, p)
    decreases RemainingAt(d, p), 0
  {
    var n :- U2(d, p);
    AttrList(d, n.next, n.value, cp, [])
  }

  /**
   * An attribute header: the name index, the length, the name looked up as
   * a Utf8 constant, and the `length` body bytes after them. The name is
   * resolved before the body bytes are taken.
   */
  function HeaderAt(d: seq<u8>, p: nat, cp: Pool.ConstantPool): (r: Result<Decoded<(string, seq<u8>)>>)
    requires p <= |d|
    ensures Advances(r, d, p)
    ensures p + 6 > |d| ==> r == Err(UnexpectedEof)
    ensures p + 6 <= |d| && Pool.GetUtf8(cp, BigEndian16(d, p)).Err? ==> r == Err(Pool.GetUtf8(cp, BigEndian16(d, p)).error)
    ensures p + 6 <= |d| && Pool.GetUtf8(cp, BigEndian16(d, p)).Ok? ==>
              if |d| < p + 6 + BigEndian32(d, p + 2) then r == Err(UnexpectedEof)
              else r == Ok(Decoded((Text(Pool.GetUtf8(cp, BigEndian16(d, p)).value), d[p + 6..p + 6 + BigEndian32(d, p + 2)]), p + 6 + BigEndian32(d, p + 2)))
  {
    var nameIndex :- U2(d, p);
    var length :- U4(d, nameIndex.next);
    var nameBytes :- Pool.GetUtf8(cp, nameIndex.value);
    var info :- Take(d, length.next, length.value);
    TakeSlice(d, length.next, length.value);
    Ok(Decoded((Text(nameBytes), info.value), info.next))
  }

  /**
   * One attribute: its header, then the body bytes decoded by the decoder
   * that the name selects, which must use every byte.
   */
  function AttributeAt(d: seq<u8>, p: nat, cp: Pool.ConstantPool): (r: Result<Decoded<AttributeInfo>>)
    requires p <= |d|
    ensures Advances(r, d, p)
    ensures r.Ok? ==> p + 6 <= |d| && r.value.next == p + 6 + BigEndian32(d, p + 2)
    decreases RemainingAt(d, p), 0
  {
    var header :- HeaderAt(d, p, cp);
    WholeBody(header.value.1, header.value.0, cp, header.next)
  }

  /**
   * The body bytes `info` of an attribute named `name`, decoded by the
   * decoder that the name selects, which must use every byte; the attribute
   * ends at `end`.
   */
  function WholeBody(info: seq<u8>, name: string, cp: Pool.ConstantPool, end: nat): (r: Result<Decoded<AttributeInfo>>)
    ensures r.Ok? ==> r.value.next == end
    decreases |info|, 5
  {
    var body :- AttributeBody(info, KindOf(name), name, cp);
    if body.next != |info| then Err(InvalidAttribute(name))
    else Ok(Decoded(body.value, end))
  }

  /** Code: max_stack, max_locals, the u4-length bytecode, the exception table, nested attributes. */
  function CodeBody(d: seq<u8>, p: nat, cp: Pool.ConstantPool): (r: Result<Decoded<CodeAttribute>>)
    requires p <= |d|
    ensures Advances(r, d, p)
    ensures p + 8 > |d| ==> r == Err(UnexpectedEof)
    ensures r.Ok? ==> p + 8 <= |d| && p + 10 + BigEndian32(d, p + 4) <= |d|
                      && r.value.value.maxStack == BigEndian16(d, p)
                      && r.value.value.maxLocals == BigEndian16(d, p + 2)
                      && r.value.value.code == d[p + 8..p + 8 + BigEndian32(d, p + 4)]
                      && |r.value.value.exceptionTable| == BigEndian16(d, p + 8 + BigEndian32(d, p + 4))
    ensures r.Ok? ==>
              var tableAt := p + 8 + BigEndian32(d, p + 4);
              var n := BigEndian16(d, tableAt);
              tableAt + 4 + 8 * n <= |d|
              && (forall i | 0 <= i < n ::
                    r.value.value.exceptionTable[i] ==
                      ExceptionTableEntry(BigEndian16(d, tableAt + 2 + 8 * i), BigEndian16(d, tableAt + 4 + 8 * i),
                                          BigEndian16(d, tableAt + 6 + 8 * i), BigEndian16(d, tableAt + 8 + 8 * i)))
              && |r.value.value.attributes| == BigEndian16(d, tableAt + 2 + 8 * n)
    decreases RemainingAt(d, p), 1
  {
    var header :- CodeHeaderAt(d, p);
    TableFixed(ExceptionEntryAt, 8, d, header.next);
    var exceptions :- Table(ExceptionEntryAt, d, header.next);
    var attributes :- AttributesAt(d, exceptions.next, cp);
    Ok(Decoded(header.value.(exceptionTable := exceptions.value, attributes := attributes.value), attributes.next))
  }

  /** max_stack, max_locals and the u4-length bytecode, in a Code attribute whose tables are still empty. */
  function CodeHeaderAt(d: seq<u8>, p: nat): (r: Result<Decoded<CodeAttribute>>)
    requires p <= |d|
    ensures Advances(r, d, p)
    ensures r.Ok? <==> p + 8 <= |d| && p + 8 + BigEndian32(d, p + 4) <= |d|
    ensures r.Ok? ==> r.value.next == p + 8 + BigEndian32(d, p + 4)
                      && r.value.value == CodeAttribute(BigEndian16(d, p), BigEndian16(d, p + 2), d[p + 8..p + 8 + BigEndian32(d, p + 4)], [], [])
    ensures r.Err? ==> r.error == UnexpectedEof
  {
    var maxStack :- U2(d, p);
    var maxLocals :- U2(d, maxStack.next);
    var codeLength :- U4(d, maxLocals.next);
    var code :- Take(d, codeLength.next, codeLength.value);
    TakeSlice(d, codeLength.next, codeLength.value);
    Ok(Decoded(CodeAttribute(maxStack.value, maxLocals.value, code.value, [], []), code.next))
  }

  /** One record_component_info: name_index, descriptor_index and its own attributes. */
  function ComponentAt(d: seq<u8>, p: nat, cp: Pool.ConstantPool): (r: Result<Decoded<RecordComponent>>)
    requires p <= |d|
    ensures Advances(r, d, p)
    ensures p + 6 > |d| ==> r == Err(UnexpectedEof)
    ensures r.Ok? ==> p + 6 <= |d|
                      && r.value.value.nameIndex == BigEndian16(d, p)
                      && r.value.value.descriptorIndex == BigEndian16(d, p + 2)
                      && |r.value.value.attributes| == BigEndian16(d, p + 4)
    decreases RemainingAt(d, p), 0
  {
    var nameIndex :- U2(d, p);
    var descriptor :- U2(d, nameIndex.next);
    var attributes :- AttributesAt(d, descriptor.next, cp);
    Ok(Decoded(RecordComponent(nameIndex.value, descriptor.value, attributes.value), attributes.next))
  }

  /** components_count and the record components after it. */
  function ComponentsAt(d: seq<u8>, p: nat, cp: Pool.ConstantPool): (r: Result<Decoded<seq<RecordComponent>>>)
    requires p <= |d|
    ensures Advances(r, d, p)
    ensures r.Ok? ==> p + 2 <= |d| && |r.value.value| == BigEndian16(d, p)
    decreases RemainingAt(d, p), 0
  {
    var n :- U2(d, p);
    Components(d, n.next, n.value, cp, [])
  }

  /** The record components still to read after `acc`: n more. */
  function Components(d: seq<u8>, p: nat, n: nat, cp: Pool.ConstantPool, acc: seq<RecordComponent>): (r: Result<Decoded<seq<RecordComponent>>>)
    requires p <= |d|
    ensures Advances(r, d, p)
    ensures r.Ok? ==> |r.value.value| == |acc| + n
    decreases RemainingAt(d, p), n
  {
    if n == 0 then Ok(Decoded(acc, p))
    else
      var c :- ComponentAt(d, p, cp);
      Components(d, c.next, n - 1, cp, acc + [c.value])
  }

  /**
   * The name dispatch through the body cursor `sub`, positioned at the start
   * of the attribute's bytes: the fixed-size bodies, then ParseTableBody.
   */
  method ParseAttributeBody(sub: Reader, kind: AttributeKind, name: string, cp: Pool.ConstantPool) returns (res: Result<AttributeInfo>)
    requires sub.Valid() && sub.pos == 0
    modifies sub
    ensures sub.Valid() && Follows(AttributeBody(sub.data, kind, name, cp), res, sub.pos)
    decreases sub.Remaining(), 4
  {
    if kind == ConstantValueKind {
      var i :- sub.ReadU2();
      return Ok(ConstantValue(i));
    } else if kind == EnclosingMethodKind {
      var c :- sub.ReadU2();
      var m :- sub.ReadU2();
      return Ok(EnclosingMethod(c, m));
    } else if kind == SyntheticKind {
      return Ok(Synthetic);
    } else if kind == SignatureKind {
      var i :- sub.ReadU2();
      return Ok(Signature(i));
    } else if kind == SourceFileKind {
      var i :- sub.ReadU2();
      return Ok(SourceFile(i));
    } else if kind == DeprecatedKind {
      return Ok(Deprecated);
    } else if kind == ModuleMainClassKind {
      var i :- sub.ReadU2();
      return Ok(ModuleMainClass(i));
    } else if kind == ModuleTargetKind {
      var i :- sub.ReadU2();
      return Ok(ModuleTarget(i));
    } else if kind == ModuleResolutionKind {
      var f :- sub.ReadU2();
      return Ok(ModuleResolution(f));
    } else if kind == NestHostKind {
      var i :- sub.ReadU2();
      return Ok(NestHost(i));
    } else {
      res := ParseTableBody(sub, kind, name, cp);
    }
  }

  /** The counted-table bodies through the body cursor. */
  method ParseTableBody(sub: Reader, kind: AttributeKind, name: string, cp: Pool.ConstantPool) returns (res: Result<AttributeInfo>)
    requires sub.Valid() && sub.pos == 0
    modifies sub
    ensures sub.Valid() && Follows(TableBody(sub.data, kind, name, cp), res, sub.pos)
    decreases sub.Remaining(), 3
  {
    if kind == ExceptionsKind {
      var table :- ReadIndexTable(sub);
      return Ok(Exceptions(table));
    } else if kind == InnerClassesKind {
      var classes :- ReadTable(sub, InnerClassAt);
      return Ok(InnerClasses(classes));
    } else if kind == LineNumberTableKind {
      var entries :- ReadTable(sub, LineNumberAt);
      return Ok(LineNumberTable(entries));
    } else if kind == LocalVariableTableKind {
      var entries :- ReadTable(sub, LocalVariableAt);
      return Ok(LocalVariableTable(entries));
    } else if kind == LocalVariableTypeTableKind {
      var entries :- ReadTable(sub, LocalVariableTypeAt);
      return Ok(LocalVariableTypeTable(entries));
    } else if kind == BootstrapMethodsKind {
      var methods :- ReadTable(sub, BootstrapMethodAt);
      return Ok(BootstrapMethods(methods));
    } else if kind == MethodParametersKind {
      var n :- sub.ReadU1();
      var parameters :- ReadList(sub, MethodParameterAt, n);
      return Ok(MethodParameters(parameters));
    } else if kind == ModulePackagesKind {
      var packages :- ReadIndexTable(sub);
      return Ok(ModulePackages(packages));
    } else if kind == ModuleHashesKind {
      var alg :- sub.ReadU2();
      var modules :- ReadTable(sub, ModuleHashAt);
      return Ok(ModuleHashes(alg, modules));
    } else if kind == NestMembersKind {
      var classes :- ReadIndexTable(sub);
      return Ok(NestMembers(classes));
    } else if kind == PermittedSubclassesKind {
      var classes :- ReadIndexTable(sub);
      return Ok(PermittedSubclasses(classes));
    } else {
      res := ParseNestedBody(sub, kind, name, cp);
    }
  }

  /** The grammar-decoded and raw bodies through the body cursor; Code and Record recurse. */
  method ParseNestedBody(sub: Reader, kind: AttributeKind, name: string, cp: Pool.ConstantPool) returns (res: Result<AttributeInfo>)
    requires sub.Valid() && sub.pos == 0
    modifies sub
    ensures sub.Valid() && Follows(NestedBody(sub.data, kind, name, cp), res, sub.pos)
    decreases sub.Remaining(), 2
  {
    if kind == CodeKind {
      var c :- ParseCode(sub, cp);
      return Ok(Code(c));
    } else if kind == RecordKind {
      var components :- ParseComponents(sub, cp);
      return Ok(Record(components));
    } else if kind == StackMapTableKind {
      var frames :- ParseStackMapTable(sub);
      return Ok(StackMapTable(frames));
    } else if kind == SourceDebugExtensionKind {
      var bs := sub.ReadBytes(sub.Remaining());
      return Ok(SourceDebugExtension(bs.value));
    } else if kind == RuntimeVisibleAnnotationsKind {
      var a :- ParseAnnotations(sub);
      return Ok(RuntimeVisibleAnnotations(a));
    } else if kind == RuntimeInvisibleAnnotationsKind {
      var a :- ParseAnnotations(sub);
      return Ok(RuntimeInvisibleAnnotations(a));
    } else if kind == RuntimeVisibleParameterAnnotationsKind {
      var a :- ParseParameterAnnotations(sub);
      return Ok(RuntimeVisibleParameterAnnotations(a));
    } else if kind == RuntimeInvisibleParameterAnnotationsKind {
      var a :- ParseParameterAnnotations(sub);
      return Ok(RuntimeInvisibleParameterAnnotations(a));
    } else if kind == RuntimeVisibleTypeAnnotationsKind {
      var a :- ParseTypeAnnotations(sub);
      return Ok(RuntimeVisibleTypeAnnotations(a));
    } else if kind == RuntimeInvisibleTypeAnnotationsKind {
      var a :- ParseTypeAnnotations(sub);
      return Ok(RuntimeInvisibleTypeAnnotations(a));
    } else if kind == AnnotationDefaultKind {
      var v :- ParseElementValue(sub);
      return Ok(AnnotationDefault(v));
    } else if kind == ModuleKind {
      var m :- ParseModuleAttribute(sub);
      return Ok(Module(m));
    } else {
      var _ := sub.ReadBytes(sub.Remaining());
      return Ok(Unknown(name, sub.data));
    }
  }

  /** parse_attributes: attributes_count, then one attribute per iteration. */
  method ParseAttributes(r: Reader, cp: Pool.ConstantPool) returns (res: Result<seq<AttributeInfo>>)
    requires r.Valid()
    modifies r
    ensures r.Valid() && Follows(AttributesAt(r.data, old(r.pos), cp), res, r.pos)
    decreases r.Remaining(), 0
  {
    var n :- r.ReadU2();
    ghost var start := r.pos;
    assert AttributesAt(r.data, old(r.pos), cp) == AttrList(r.data, start, n, cp, []);
    var attrs: seq<AttributeInfo> := [];
    var i := 0;
    while i < n
      invariant i <= n && r.Valid() && start <= r.pos
      invariant AttrList(r.data, start, n, cp, []) == AttrList(r.data, r.pos, n - i, cp, attrs)
    {
      ghost var here := r.pos;
      var a := ParseAttribute(r, cp);
      if a.Err? {
        assert AttrList(r.data, here, n - i, cp, attrs) == Err(a.error);
        return Err(a.error);
      }
      assert AttrList(r.data, here, n - i, cp, attrs) == AttrList(r.data, r.pos, n - i - 1, cp, attrs + [a.value]);
      attrs := attrs + [a.value];
      i := i + 1;
    }
    return Ok(attrs);
  }

  /**
   * The body of the attribute loop: header, name lookup, the body bytes, a
   * fresh cursor over them, and the check that the body used all of them.
   */
  method ParseAttribute(r: Reader, cp: Pool.ConstantPool) returns (res: Result<AttributeInfo>)
    requires r.Valid()
    modifies r
    ensures r.Valid() && Follows(AttributeAt(r.data, old(r.pos), cp), res, r.pos)
    decreases r.Remaining(), 0
  {
    var nameIndex :- r.ReadU2();
    var length :- r.ReadU4();
    var nameBytes :- Pool.GetUtf8(cp, nameIndex);
    var name := Text(nameBytes);
    var info :- r.ReadBytes(length);
    var sub := new Reader(info);
    var attr :- ParseAttributeBody(sub, KindOf(name), name, cp);
    if sub.Remaining() != 0 {
      return Err(InvalidAttribute(name));
    }
    return Ok(attr);
  }

  /** parse_code_attribute. */
  method ParseCode(r: Reader, cp: Pool.ConstantPool) returns (res: Result<CodeAttribute>)
    requires r.Valid()
    modifies r
    ensures r.Valid() && Follows(CodeBody(r.data, old(r.pos), cp), res, r.pos)
    decreases r.Remaining(), 1
  {
    var maxStack :- r.ReadU2();
    var maxLocals :- r.ReadU2();
    var codeLength :- r.ReadU4();
    var code :- r.ReadBytes(codeLength);
    var exceptions :- ReadTable(r, ExceptionEntryAt);
    var attributes :- ParseAttributes(r, cp);
    return Ok(CodeAttribute(maxStack, maxLocals, code, exceptions, attributes));
  }

  /** The Record body: components_count, then one component per iteration. */
  method ParseComponents(r: Reader, cp: Pool.ConstantPool) returns (res: Result<seq<RecordComponent>>)
    requires r.Valid()
    modifies r
    ensures r.Valid() && Follows(ComponentsAt(r.data, old(r.pos), cp), res, r.pos)
    decreases r.Remaining(), 0
  {
    var n :- r.ReadU2();
    ghost var start := r.pos;
    assert ComponentsAt(r.data, old(r.pos), cp) == Components(r.data, start, n, cp, []);
    var components: seq<RecordComponent> := [];
    var i := 0;
    while i < n
      invariant i <= n && r.Valid() && start <= r.pos
      invariant Components(r.data, start, n, cp, []) == Components(r.data, r.pos, n - i, cp, components)
    {
      ghost var here := r.pos;
      var c := ParseComponent(r, cp);
      if c.Err? {
        assert Components(r.data, here, n - i, cp, components) == Err(c.error);
        return Err(c.error);
      }
      assert Components(r.data, here, n - i, cp, components) == Components(r.data, r.pos, n - i - 1, cp, components + [c.value]);
      components := components + [c.value];
      i := i + 1;
    }
    return Ok(components);
  }

  /** The body of the component loop: two u2 indices and the component's attributes. */
  method ParseComponent(r: Reader, cp: Pool.ConstantPool) returns (res: Result<RecordComponent>)
    requires r.Valid()
    modifies r
    ensures r.Valid() && Follows(ComponentAt(r.data, old(r.pos), cp), res, r.pos)
    decreases r.Remaining(), 0
  {
    var nameIndex :- r.ReadU2();
    var descriptor :- r.ReadU2();
    var attributes :- ParseAttributes(r, cp);
    return Ok(RecordComponent(nameIndex, descriptor, attributes));
  }
}
