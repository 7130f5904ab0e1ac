# A verified model of a Java class-file decoder and the JVM TI capability bitset

This project models two parts of a Rust library for writing JVM agents.

The first is the class-file decoder (`src/classfile.rs`). It follows chapter 4 of
*The Java Virtual Machine Specification*. `ClassFile::parse` reads a byte slice
through a bounds-checked big-endian `Reader` and returns either a `ClassFile` or the
first `ClassFileError` it meets. The decoding runs in this order:

- the magic number, the minor and major versions and the constant pool, with its
  double-slot rule for `CONSTANT_Long` and `CONSTANT_Double`;
- the access flags, this/super class and the interfaces;
- the fields and the methods;
- the class attributes.

The attribute decoder is recursive. `Code` and `Record` bodies contain attribute
lists of their own, and element values nest. Every attribute body is read through a
sub-reader over exactly `attribute_length` bytes, and that sub-reader must be used
up.

The second is the `jvmtiCapabilities` bitset (`src/sys/jvmti.rs`). It holds four
`u32` words. `set_bit` and `get_bit` address bit `k` as bit `k % 32` of word
`k / 32`, and each of the 45 named `set_can_*` / `can_*` pairs uses one fixed offset.

## How the model is built

- **Grammar functions.** Each part of the format is a function
  `F(d: seq<u8>, p: nat): Result<Decoded<T>>`. It gives the decoded value and the
  position after it, or the error. A count-driven `for` loop of the source becomes a
  function of the remaining count and the vector built so far (`AttrList`,
  `MemberList`, `Indices`, …).
- **Imperative decoder.** The `Reader` is a class with the buffer and a mutable
  `pos`. Most `parse_*` routines are methods over a `Reader`, with the source's
  loops and the invariants that relate them to the grammar. Two are not:
  `parse_verification_type_info` and the per-frame body of `parse_stack_map_table`
  (the match over frame_type) are the pure grammars `StackMap.VerificationType`
  and `StackMap.Frame`, where the Append and Full arms' count-driven loops are
  `Repeat` and `Table`; `Reader.Read` runs such a grammar in one step, and the frame
  loop is a `ReadList` over `Frame`. Struct literals of consecutive reads (an
  exception-table entry, an inner-class entry, …) are grammar functions run the
  same way. Each method's contract is
  `Follows(Spec(data, old(pos)), res, pos)`: the method returns exactly what the
  grammar specifies and leaves `pos` where the grammar says. `ClassFiles.Parse` has
  the contract `res == Decode(bytes)`.
- **Properties.** The properties the decoder promises are proved about the grammar
  functions:
  - big-endian values;
  - the hole after 8-byte constants;
  - the order of the attribute checks;
  - exact-length consumption;
  - unknown attributes kept intact;
  - frame-type ranges;
  - tag sets.
- **Capabilities.** `jvmtiCapabilities` is a class whose `bits` field is an array of
  four `bv32` words. Setting a bit is specified by a function on the words' contents,
  and the lemmas beside that function state that only that bit changes.

Modules, one concern each:

| Module | File | Contents |
|---|---|---|
| `Bytes` | `bytes.dfy` | byte types, big-endian values and their inverse, two's-complement views, the byte-per-char text view |
| `Results` | `results.dfy` | the error enum, `Result` and `Decoded` |
| `Cursor` | `cursor.dfy` | `U1`/`U2`/`U4`/`Take`, list grammars, the `Reader` class |
| `Pool` | `constant_pool.dfy` | the constant pool: grammar, lookup and decoder |
| `AttributeTypes` | `attribute_types.dfy` | the attribute data types |
| `StackMap` | `stack_map.dfy` | the StackMapTable grammar |
| `Annotations` | `annotations.dfy` | annotations and element values |
| `TypeAnnotations` | `type_annotations.dfy` | type annotations, target_info and type_path |
| `ModuleAttributes` | `module_attribute.dfy` | the Module attribute |
| `Attributes` | `attributes.dfy` | the attribute name table, the attribute grammar cluster and its decoder |
| `AttributeProperties` | `attribute_properties.dfy` | the attribute lemmas |
| `ClassFiles` | `classfile.dfy` | fields, methods and the whole class file |
| `BitWords`, `CapabilityBits`, `Capabilities` | `capabilities.dfy` | the capability bitset |

## Model

| member | source | states |
|---|---|---|
| Bytes.BigEndian | src/classfile.rs:368-389 | the big-endian value of n bytes is below 256^n |
| Bytes.EncodeBigEndian | src/classfile.rs:368-389 | encoding a value below 256^n yields exactly n bytes |
| Bytes.BigEndianOfEncode | src/classfile.rs:368-389 | decoding the big-endian encoding of v gives v back |
| Bytes.EncodeOfBigEndian | src/classfile.rs:368-389 | encoding the value of a byte string, at its own width, gives the string back |
| Bytes.BigEndian2 | src/classfile.rs:368-375 | a two-byte big-endian value is b0*256 + b1 |
| Bytes.BigEndian4 | src/classfile.rs:377-389 | a four-byte big-endian value is b0*2^24 + b1*2^16 + b2*2^8 + b3 |
| Bytes.BigEndian16Is | src/classfile.rs:368-375 | the u16 read at p is the big-endian value of bytes p..p+2 |
| Bytes.BigEndian32Is | src/classfile.rs:377-389 | the u32 read at p is the big-endian value of bytes p..p+4 |
| Bytes.BigEndianConcat | src/classfile.rs:377-389 | the value of a ++ b is value(a) * 256^\|b\| + value(b); Pool.Join64IsBigEndian uses it for the two u4 halves of an 8-byte constant |
| Bytes.Signed32 | src/classfile.rs:468 | `u32 as i32` gives the integer congruent to v modulo 2^32, negative exactly when the top bit is set |
| Bytes.Signed64 | src/classfile.rs:476 | `u64 as i64` gives the integer congruent to v modulo 2^64, negative exactly when the top bit is set |
| Bytes.Unsigned32 | src/classfile.rs:468 | the inverse of the i32 reinterpretation: reinterpreting its result gives the i32 back |
| Bytes.Unsigned64 | src/classfile.rs:476 | the inverse of the i64 reinterpretation: reinterpreting its result gives the i64 back |
| Bytes.Text | src/classfile.rs:465 | the text view of a byte string has one char per byte, carrying the byte's value |
| Bytes.Latin1 | src/classfile.rs:465 | a string of chars below 256 has a byte string whose text view is that string |
| Bytes.Latin1OfText | src/classfile.rs:465 | the text view loses no byte: its inverse gives the bytes back |
| Cursor.RemainingAt | src/classfile.rs:355-357 | the remaining count plus the position is the buffer's length; past the end it is 0 |
| Cursor.TakeSlice | src/classfile.rs:391-398 | when len bytes remain, reading them yields exactly the slice d[p..p+len] and the position p+len |
| Cursor.Take | src/classfile.rs:391-398 | reading len bytes succeeds exactly when len bytes remain; it then yields those bytes and advances by len; otherwise it fails with UnexpectedEof |
| Cursor.U1 | src/classfile.rs:359-366 | succeeds exactly when a byte remains, gives d[p] and advances by 1, otherwise UnexpectedEof |
| Cursor.U2 | src/classfile.rs:368-375 | succeeds exactly when two bytes remain, gives their big-endian u16 and advances by 2, otherwise UnexpectedEof |
| Cursor.U4 | src/classfile.rs:377-389 | succeeds exactly when four bytes remain, gives their big-endian u32 and advances by 4, otherwise UnexpectedEof |
| Cursor.U2IsBigEndian | src/classfile.rs:368-375 | a successful u2 read is the big-endian value of the two bytes at p |
| Cursor.U4IsBigEndian | src/classfile.rs:377-389 | a successful u4 read is the big-endian value of the four bytes at p |
| Cursor.RepeatFrom | src/classfile.rs:583-590 | n more items appended to acc: on success the result keeps acc as its prefix, with exactly n more items, and ends inside the buffer |
| Cursor.Repeat | src/classfile.rs:583-590 | a count-driven loop of n items yields exactly n items, ending inside the buffer |
| Cursor.Table | src/classfile.rs:583-590 | a u2-counted table has as many items as its count says; a missing count is UnexpectedEof |
| Cursor.RepeatFixed | src/classfile.rs:751-758 | n records of a fixed width w decode exactly when w*n bytes remain; they then end at p + w*n and record i is the one that decodes at p + w*i; otherwise UnexpectedEof |
| Cursor.TableFixed | src/classfile.rs:749-758 | a u2 count n of fixed-width records decodes exactly when the count and w*n bytes are present; it ends at p + 2 + w*n, record i is the one at p + 2 + w*i; otherwise UnexpectedEof |
| Cursor.Indices | src/classfile.rs:418-422 | n u2 indices succeed exactly when 2n bytes remain; they then take exactly 2n bytes, keep acc as prefix and give as value i the u2 read at p + 2i; otherwise they fail with UnexpectedEof |
| Cursor.IndexTable | src/classfile.rs:546-551 | a u2-counted index table succeeds exactly when its count and 2*count bytes are present; it then ends right after them, and entry i is the u2 at p + 2 + 2i; otherwise it fails with UnexpectedEof |
| Cursor.Reader.constructor | src/classfile.rs:351-353 | a new reader is over the given bytes at position 0 |
| Cursor.Reader.Remaining | src/classfile.rs:355-357 | position plus remaining is the buffer's length |
| Cursor.Reader.ReadU1 | src/classfile.rs:359-366 | does what U1 specifies at the old position; on failure the position is unchanged |
| Cursor.Reader.ReadU2 | src/classfile.rs:368-375 | does what U2 specifies; the value is b0*256 + b1; on failure the position is unchanged |
| Cursor.Reader.ReadU4 | src/classfile.rs:377-389 | does what U4 specifies; the value is b0*2^24 + b1*2^16 + b2*2^8 + b3; on failure the position is unchanged |
| Cursor.Reader.ReadBytes | src/classfile.rs:391-398 | does what Take specifies; on failure the position is unchanged |
| Cursor.Reader.Read | src/classfile.rs:752-757 | runs any advancing grammar (a struct literal of consecutive reads, a stack map frame) at the current position: it returns exactly that grammar's value and error, and moves to the grammar's end position; on failure the position stays |
| Cursor.ReadList | src/classfile.rs:583-590 | the `for _ in 0..n { push }` loop returns exactly what Repeat specifies and stops where it does |
| Cursor.ReadTable | src/classfile.rs:583-590 | a u2 count followed by that loop: exactly what Table specifies |
| Cursor.ReadIndices | src/classfile.rs:418-422 | the loop of u2 reads computes Indices |
| Cursor.ReadIndexTable | src/classfile.rs:546-551 | a counted u2 index loop computes IndexTable |
| Pool.Get | src/classfile.rs:44-53 | the lookup succeeds exactly when 0 < index < \|entries\| and the slot is filled; it returns that slot's entry; otherwise it fails with InvalidConstantPoolIndex(index) |
| Pool.GetUtf8 | src/classfile.rs:54-60 | succeeds exactly when Get succeeds on a Utf8 entry, returning its bytes; otherwise it fails with InvalidConstantPoolIndex(index) |
| Pool.Entry | src/classfile.rs:460-504 | no tag byte is UnexpectedEof; an unknown tag is InvalidConstantPoolTag(tag); a known tag fails only with UnexpectedEof; a decoded entry's kind matches its tag, and per tag its fields are the bytes after it: Utf8 the length-prefixed bytes, Integer Signed32 of the u4, Float the u4, Long Signed64 of Join64 of the two u4s, Double Join64, the index entries their u2 (and u1) fields, each with its end position |
| Pool.Join64 | src/classfile.rs:474-476 | `(high << 32) \| low`: the joined value divided by 2^32 is the high word and its remainder is the low word |
| Pool.Join64IsBigEndian | src/classfile.rs:473-476 | joining the u4 at p and the u4 at p+4 gives the big-endian value of the eight bytes at p |
| Pool.SlotsOf | src/classfile.rs:473-506 | an entry takes one slot holding it; a Long or Double takes two |
| Pool.Slots | src/classfile.rs:458-508 | the loop from index i to count appends count - i slots, or one more when a wide entry is last, and keeps the slots already built |
| Pool.PoolAt | src/classfile.rs:453-511 | the pool starts with the unused slot 0 and holds count or count + 1 slots |
| Pool.HoleAfterWideAppend | src/classfile.rs:473-490 | appending an entry's slots keeps every Long/Double followed by an empty slot |
| Pool.SlotsHoleAfterWide | src/classfile.rs:458-508 | the pool loop keeps every Long/Double followed by an empty slot |
| Pool.WideEntryLeavesHole | src/classfile.rs:473-490 | for a Long or Double at index j of a decoded pool, get(j+1) fails with InvalidConstantPoolIndex(j+1) |
| Pool.GetZeroFails | src/classfile.rs:44-47 | get(0) always fails with InvalidConstantPoolIndex(0) |
| Pool.ParseConstantPool | src/classfile.rs:453-511 | the `while i < count` loop, which advances i by 1 or by 2, computes PoolAt |
| Pool.ParseEntry | src/classfile.rs:460-504 | one iteration's tag dispatch computes Entry |
| StackMap.VerificationType | src/classfile.rs:811-826 | tags 0..6 decode as the one-byte types and end at p+1; tag 7 is ObjectVariable and tag 8 UninitializedVariable of the u2 at p+1, ending at p+3, or UnexpectedEof when those two bytes are missing; the decoded verification type has the tag read; a tag above 8 is InvalidAttribute("StackMapTable"); no tag is UnexpectedEof |
| StackMap.Frame | src/classfile.rs:766-806 | 0..63 is Same(frame_type) ending at p+1; 64..127 is SameLocals1StackItem(frame_type - 64) with the verification type at p+1, failing exactly when it does; 247 is SameLocals1StackItemExtended with offset_delta the u2 at p+1 and the verification type at p+3; 248..250 is Chop(u2 at p+1, 251 - frame_type) and 251 SameExtended(u2 at p+1), both ending at p+3; 252..254 is Append(u2 at p+1, the frame_type - 251 verification types from p+3); 255 is Full(u2 at p+1, the u2-counted locals at p+3, the u2-counted stack after them); 247..255 without the u2 is UnexpectedEof; the decoded frame re-encodes to the frame_type read and is well formed (Same and SameLocals1StackItem deltas are at most 63, Chop drops 1 to 3 locals, Append adds exactly frame_type - 251); 128..246 is InvalidAttribute("StackMapTable"); no byte is UnexpectedEof |
| StackMap.StackMapTableAt | src/classfile.rs:763-809 | number_of_entries frames, every one well formed |
| StackMap.FramesWellFormed | src/classfile.rs:766-806 | the frame loop yields only well-formed frames |
| StackMap.FrameAdvancing | src/classfile.rs:766-806 | a frame decode always ends inside the buffer and never before its start |
| StackMap.ParseStackMapTable | src/classfile.rs:763-809 | the frame loop computes StackMapTableAt |
| Annotations.ElementValueAt | src/classfile.rs:861-890 | an element value ends inside the buffer; its payload per tag is stated by ElementValuePayload |
| Annotations.ElementValueTag | src/classfile.rs:861-890 | a decoded element value is of the kind its tag names (BCDFIJSZs constants, e, c, @, [); any other tag is InvalidAttribute("annotation"); no tag is UnexpectedEof |
| Annotations.ElementValuePayload | src/classfile.rs:861-890 | per tag: a constant tag gives Const(tag, u2 at p+1) and ends at p+3, 'e' gives EnumConst of the u2s at p+1 and p+3 and ends at p+5, 'c' ClassInfo of the u2 at p+1, '@' the nested annotation at p+1, '[' ArrayValue of the u2-counted list at p+3; a short payload is UnexpectedEof |
| Annotations.ElementValues | src/classfile.rs:881-885 | an array value's loop yields exactly num_values values |
| Annotations.AnnotationAt | src/classfile.rs:849-859 | an annotation has type_index the u2 at p and exactly as many pairs as the u2 at p+2 says; fewer than four bytes is UnexpectedEof |
| Annotations.ElementValuePairs | src/classfile.rs:849-859 | an annotation's pair loop yields exactly num_element_value_pairs pairs |
| Annotations.PairAt | src/classfile.rs:853-856 | a pair's element_name_index is the u2 at p; fewer than two bytes is UnexpectedEof |
| Annotations.PairValue | src/classfile.rs:853-856 | a pair's value is the element value decoded right after its name index, and a failing value is the pair's error |
| Annotations.Annotations | src/classfile.rs:828-835 | the annotation loop yields exactly n annotations |
| Annotations.AnnotationsAt | src/classfile.rs:828-835 | num_annotations annotations; no count is UnexpectedEof |
| Annotations.ParameterAnnotations | src/classfile.rs:837-847 | the parameter loop yields one annotation list per parameter |
| Annotations.ParameterAnnotationsAt | src/classfile.rs:837-847 | a u1 num_parameters and that many lists; no count byte is UnexpectedEof |
| Annotations.ParseElementValue | src/classfile.rs:861-890 | the recursive element-value decoder computes ElementValueAt |
| Annotations.ParseElementValueArray | src/classfile.rs:881-885 | its loop computes ElementValues |
| Annotations.ParseElementValuePairs | src/classfile.rs:849-859 | the pair loop computes ElementValuePairs |
| Annotations.ParsePair | src/classfile.rs:853-856 | one pair step computes PairAt |
| Annotations.ParseAnnotation | src/classfile.rs:849-859 | parse_annotation computes AnnotationAt |
| Annotations.ParseAnnotations | src/classfile.rs:828-835 | parse_annotations computes AnnotationsAt |
| Annotations.ParseAnnotationList | src/classfile.rs:828-835 | the annotation loop computes Annotations |
| Annotations.ParseParameterAnnotations | src/classfile.rs:837-847 | parse_parameter_annotations computes ParameterAnnotationsAt |
| TypeAnnotations.LocalVarTargetAt | src/classfile.rs:924-928 | a localvar_target entry succeeds exactly when its six bytes are present; it is start_pc, length and index, the u2s at p, p+2, p+4, and ends at p+6; otherwise UnexpectedEof |
| TypeAnnotations.LocalVarTargetAdvancing | src/classfile.rs:920-931 | a localvar_target entry always ends inside the buffer and is a fixed six-byte record: it decodes exactly when six bytes remain, ends six bytes on, and otherwise fails with UnexpectedEof |
| TypeAnnotations.TargetInfoAt | src/classfile.rs:912-942 | per target_type, the value and end: 0x00/0x01 TypeParameter(d[p]) at p+1; 0x10 Supertype(u2 at p) at p+2; 0x11/0x12 TypeParameterBound(d[p], d[p+1]) at p+2; 0x13..0x15 Empty at p; 0x16 FormalParameter(d[p]) at p+1; 0x17 Throws, 0x42 Catch and 0x43..0x46 Offset of the u2 at p, at p+2; 0x47..0x4B TypeArgument(u2 at p, d[p+2]) at p+3; each UnexpectedEof when those bytes are missing; 0x40/0x41 Localvar decodes exactly when the u2 count n and 6n bytes are present, entry i is LocalVarTarget of the u2s at p+2+6i, p+4+6i, p+6+6i and it ends at p+2+6n; a known target_type fails only with UnexpectedEof; the decoded target_info has the shape its target_type selects; a target_type outside the accepted ranges is InvalidAttribute("type_annotation") |
| TypeAnnotations.TypePathEntryAt | src/classfile.rs:944-954 | a path step succeeds exactly when its two bytes are present; it is type_path_kind d[p] and type_argument_index d[p+1] and ends at p+2; otherwise UnexpectedEof |
| TypeAnnotations.TypePathEntryAdvancing | src/classfile.rs:944-954 | a path step always ends inside the buffer and is a fixed two-byte record: it decodes exactly when two bytes remain, ends two bytes on, and otherwise fails with UnexpectedEof |
| TypeAnnotations.TypePathAt | src/classfile.rs:944-954 | a type_path decodes exactly when its length byte n = d[p] and 2n more bytes are present; it then has n steps, step i is TypePathEntry(d[p+1+2i], d[p+2+2i]), and it ends at p+1+2n; otherwise UnexpectedEof |
| TypeAnnotations.TypeAnnotationAt | src/classfile.rs:896-907 | one type annotation ends inside the buffer; an empty buffer is UnexpectedEof (its fields are TypeAnnotationFields) |
| TypeAnnotations.TypeAnnotations | src/classfile.rs:892-910 | the type-annotation loop yields exactly n annotations |
| TypeAnnotations.TypeAnnotationsKeep | src/classfile.rs:895-909 | decoding more type annotations keeps those already decoded as a prefix |
| TypeAnnotations.TypeAnnotationFields | src/classfile.rs:896-907 | a decoded type annotation has target_type d[p], the target_info that type selects at p+1, the type_path right after it, then type_index the u2 after the path, and element_value_pairs the list of as many pairs as the u2 after that says, starting right after it; the annotation ends where that list ends |
| TypeAnnotations.TypeAnnotationNext | src/classfile.rs:895-909 | in the loop, the annotation appended after acc is exactly the one TypeAnnotationAt decodes at the current position |
| TypeAnnotations.TypeAnnotationsAt | src/classfile.rs:892-910 | num_annotations type annotations |
| TypeAnnotations.ParseTargetInfo | src/classfile.rs:912-942 | parse_target_info computes TargetInfoAt |
| TypeAnnotations.ParseTypePath | src/classfile.rs:944-954 | parse_type_path computes TypePathAt |
| TypeAnnotations.ParseTypeAnnotation | src/classfile.rs:896-907 | reads exactly what TypeAnnotationAt specifies and moves to its end; as one iteration of the type-annotation loop it takes TypeAnnotations one annotation further, or fails with the error TypeAnnotations gives |
| TypeAnnotations.ParseTypeAnnotationList | src/classfile.rs:895-909 | the type-annotation loop over n annotations computes TypeAnnotations |
| TypeAnnotations.ParseTypeAnnotations | src/classfile.rs:892-910 | the u2 count and the loop compute TypeAnnotationsAt |
| ModuleAttributes.RequiresList | src/classfile.rs:961-969 | n requires entries succeed exactly when 6n bytes remain; they then take exactly 6n bytes, keep acc as prefix, and entry i is the u2s requires_index, requires_flags, requires_version_index at p + 6i, p + 6i + 2, p + 6i + 4; otherwise UnexpectedEof |
| ModuleAttributes.ExportsAt | src/classfile.rs:973-980 | an exports entry succeeds exactly when its six header bytes and its 2*exports_to_count index bytes are present; it is exports_index and exports_flags, the u2s at p and p+2, with exports_to entry i the u2 at p + 6 + 2i, and ends right after them; otherwise UnexpectedEof |
| ModuleAttributes.ExportsList | src/classfile.rs:971-980 | the exports loop yields exactly n entries and fails only with UnexpectedEof |
| ModuleAttributes.ExportsTable | src/classfile.rs:971-980 | exports_count then the exports loop: as many entries as the count says; a missing count is UnexpectedEof, the only error |
| ModuleAttributes.OpensAt | src/classfile.rs:984-991 | an opens entry succeeds exactly when its six header bytes and its 2*opens_to_count index bytes are present; it is opens_index and opens_flags, the u2s at p and p+2, with opens_to entry i the u2 at p + 6 + 2i, and ends right after them; otherwise UnexpectedEof |
| ModuleAttributes.OpensList | src/classfile.rs:982-991 | the opens loop yields exactly n entries and fails only with UnexpectedEof |
| ModuleAttributes.OpensTable | src/classfile.rs:982-991 | opens_count then the opens loop: as many entries as the count says; a missing count is UnexpectedEof, the only error |
| ModuleAttributes.ProvidesAt | src/classfile.rs:999-1005 | a provides entry succeeds exactly when its four header bytes and its 2*provides_with_count index bytes are present; it is provides_index, the u2 at p, with provides_with entry i the u2 at p + 4 + 2i, and ends right after them; otherwise UnexpectedEof |
| ModuleAttributes.ProvidesList | src/classfile.rs:997-1005 | the provides loop yields exactly n entries and fails only with UnexpectedEof |
| ModuleAttributes.ProvidesTable | src/classfile.rs:997-1005 | provides_count then the provides loop: as many entries as the count says; a missing count is UnexpectedEof, the only error |
| ModuleAttributes.ModuleHeaderAt | src/classfile.rs:957-969 | the fixed part and the requires table decode exactly when eight bytes and 6*requires_count more are present; name, flags and version are the u2s at p, p+2, p+4, the requires entries are RequiresList at p+8, and it ends at p+8+6*requires_count; otherwise UnexpectedEof |
| ModuleAttributes.ModuleTablesAt | src/classfile.rs:971-1017 | the exports, opens, uses and provides tables are read in that order, each starting where the previous ends; the header's fields are kept; the only error is UnexpectedEof |
| ModuleAttributes.ModuleAt | src/classfile.rs:956-1017 | the name, flags and version are the first three u2 values; the requires list is RequiresList at p+8 with requires_count entries; exports is ExportsTable right after the requires entries, opens is OpensTable where exports ends, uses is the IndexTable where opens ends, provides is ProvidesTable where uses ends, and the attribute ends where provides ends; fewer than eight bytes is UnexpectedEof, the only error |
| ModuleAttributes.ParseRequires | src/classfile.rs:961-969 | the requires loop computes RequiresList |
| ModuleAttributes.ParseExportsEntry | src/classfile.rs:973-980 | one exports entry computes ExportsAt and is one step of ExportsList |
| ModuleAttributes.ParseExports | src/classfile.rs:971-980 | the exports loop computes ExportsList |
| ModuleAttributes.ParseOpensEntry | src/classfile.rs:984-991 | one opens entry computes OpensAt and is one step of OpensList |
| ModuleAttributes.ParseOpens | src/classfile.rs:982-991 | the opens loop computes OpensList |
| ModuleAttributes.ParseProvidesEntry | src/classfile.rs:999-1005 | one provides entry computes ProvidesAt and is one step of ProvidesList |
| ModuleAttributes.ParseProvides | src/classfile.rs:997-1005 | the provides loop computes ProvidesList |
| ModuleAttributes.ParseModuleAttribute | src/classfile.rs:956-1017 | parse_module_attribute computes ModuleAt |
| Attributes.ExceptionEntryAt | src/classfile.rs:751-758 | an exception_table entry succeeds exactly when its eight bytes are present; it is start_pc, end_pc, handler_pc and catch_type, the u2s at p, p+2, p+4, p+6, ending at p+8; otherwise UnexpectedEof |
| Attributes.InnerClassAt | src/classfile.rs:555-562 | an inner-class entry succeeds exactly when its eight bytes are present; it is the four u2 fields at p, p+2, p+4, p+6, ending at p+8; otherwise UnexpectedEof |
| Attributes.LineNumberAt | src/classfile.rs:586-588 | a line-number entry succeeds exactly when its four bytes are present; it is start_pc and line_number, the u2s at p and p+2, ending at p+4; otherwise UnexpectedEof |
| Attributes.LocalVariableAt | src/classfile.rs:594-602 | a local-variable entry succeeds exactly when its ten bytes are present; it is the five u2 fields at p, p+2, ..., p+8, ending at p+10; otherwise UnexpectedEof |
| Attributes.LocalVariableTypeAt | src/classfile.rs:608-616 | a local-variable-type entry succeeds exactly when its ten bytes are present; it is the five u2 fields at p, p+2, ..., p+8, ending at p+10; otherwise UnexpectedEof |
| Attributes.BootstrapMethodAt | src/classfile.rs:651-657 | a bootstrap method succeeds exactly when its four header bytes and 2*num_bootstrap_arguments argument bytes are present; its reference is the u2 at p, argument i is the u2 at p + 4 + 2i, and it ends right after them; otherwise UnexpectedEof |
| Attributes.MethodParameterAt | src/classfile.rs:663-665 | a method parameter succeeds exactly when its four bytes are present; it is name_index and access_flags, the u2s at p and p+2, ending at p+4; otherwise UnexpectedEof |
| Attributes.ModuleHashAt | src/classfile.rs:683-688 | a module hash succeeds exactly when its four header bytes and hash_length bytes are present; it is module_name_index, the u2 at p, with exactly the hash_length bytes after the header, ending right after them; otherwise UnexpectedEof |
| Attributes.AttributeBody | src/classfile.rs:539-730 | the body that the attribute name selects ends inside the attribute's bytes |
| Attributes.TableBody | src/classfile.rs:546-725 | a counted-table body ends inside the attribute's bytes |
| Attributes.NestedBody | src/classfile.rs:544-729 | a Code, Record, stack map, annotation, Module or unknown body ends inside the attribute's bytes |
| Attributes.AttrList | src/classfile.rs:532-740 | the attribute loop yields exactly n attributes |
| Attributes.AttributesAt | src/classfile.rs:529-742 | attributes_count attributes |
| Attributes.HeaderAt | src/classfile.rs:532-535 | fewer than six header bytes is UnexpectedEof; a name index that is not a Utf8 constant fails with the lookup's error; then fewer than attribute_length remaining bytes is UnexpectedEof; otherwise the header is the name and exactly the attribute_length bytes after it, and ends right after them |
| Attributes.AttributeAt | src/classfile.rs:532-739 | a decoded attribute ends exactly 6 + attribute_length bytes after its start |
| Attributes.WholeBody | src/classfile.rs:536-739 | a decoded body ends the attribute where its header said |
| Attributes.CodeHeaderAt | src/classfile.rs:745-748 | max_stack, max_locals, code_length and the code decode exactly when eight bytes and code_length more are present; the values are the u2s at p and p+2 and the code_length bytes after the u4 at p+4, ending after the code; otherwise UnexpectedEof |
| Attributes.CodeBody | src/classfile.rs:744-761 | a Code body has max_stack and max_locals the u2s at p and p+2, code exactly the code_length bytes after the u4 at p+4, and exception_table_length n entries, with entry i the ExceptionTableEntry of the four u2s at q+2+8i, q+4+8i, q+6+8i, q+8+8i where q = p+8+code_length; its attributes are as many as the u2 at q+2+8n says; fewer than eight bytes is UnexpectedEof |
| Attributes.ComponentAt | src/classfile.rs:713-716 | a record component has name_index and descriptor_index the u2s at p and p+2 and attributes_count attributes after them; fewer than six bytes is UnexpectedEof |
| Attributes.ComponentsAt | src/classfile.rs:710-718 | components_count record components |
| Attributes.Components | src/classfile.rs:712-717 | the component loop yields exactly n components |
| Attributes.ParseAttributeBody | src/classfile.rs:539-730 | the name dispatch over the sub-reader computes AttributeBody |
| Attributes.ParseTableBody | src/classfile.rs:546-725 | the counted-table arms compute TableBody |
| Attributes.ParseNestedBody | src/classfile.rs:544-729 | the nested arms compute NestedBody |
| Attributes.ParseAttributes | src/classfile.rs:529-742 | parse_attributes computes AttributesAt |
| Attributes.ParseAttribute | src/classfile.rs:533-739 | one loop iteration, with its length-bounded sub-reader, computes AttributeAt |
| Attributes.ParseCode | src/classfile.rs:744-761 | parse_code_attribute computes CodeBody |
| Attributes.ParseComponents | src/classfile.rs:709-719 | the Record arm's loop computes ComponentsAt |
| Attributes.ParseComponent | src/classfile.rs:713-716 | one record component computes ComponentAt |
| AttributeProperties.TableKindsKnown | src/classfile.rs:539-725 | every name in the dispatch table selects a decoder of its own |
| AttributeProperties.KindFromFinds | src/classfile.rs:539-729 | the lookup from i finds a decoder exactly when some entry at or after i carries the name, and it returns that entry's decoder |
| AttributeProperties.KindOfKnown | src/classfile.rs:539-729 | a name selects a decoder of its own exactly when it is one of the known attribute names |
| AttributeProperties.KindOtherIsUnknown | src/classfile.rs:726-729 | only the Unknown attribute falls through to the catch-all arm |
| AttributeProperties.KindFromFirstMatch | src/classfile.rs:539-729 | the lookup returns the first entry that carries the name, as a `match` takes its first matching arm |
| AttributeProperties.KindsOfNamedAttributes | src/classfile.rs:539-620 | ConstantValue, Synthetic and Deprecated select their own arms |
| AttributeProperties.HeaderErrorPropagates | src/classfile.rs:532-535 | a header that fails is the attribute's failure |
| AttributeProperties.HeaderThenBody | src/classfile.rs:532-739 | once the header gives the name and the body bytes, the attribute is those bytes decoded whole under that name |
| AttributeProperties.HeaderShort | src/classfile.rs:533-534 | fewer than six header bytes is UnexpectedEof |
| AttributeProperties.NameResolvedFirst | src/classfile.rs:535 | a name index that is not a Utf8 constant fails with the lookup's error before the body is read, whatever the length says |
| AttributeProperties.BodyShort | src/classfile.rs:536 | with the name resolved, fewer than attribute_length remaining bytes is UnexpectedEof |
| AttributeProperties.BodyErrorPropagates | src/classfile.rs:538-729 | with the header read, the body decoder's error is the attribute's error |
| AttributeProperties.TrailingBytesRejected | src/classfile.rs:732-737 | a body decode that leaves bytes unread fails with InvalidAttribute(name) |
| AttributeProperties.WholeBodyAccepted | src/classfile.rs:732-739 | a body decode that reads every byte is the attribute, which ends where the header said |
| AttributeProperties.NonEmptyMarkerRejected | src/classfile.rs:570-737 | a Synthetic or Deprecated attribute with a non-empty body fails with InvalidAttribute(name) |
| AttributeProperties.EmptyMarkerAccepted | src/classfile.rs:570-620 | an empty Synthetic or Deprecated attribute is accepted and is six bytes long |
| AttributeProperties.OtherBodyKept | src/classfile.rs:726-729 | the catch-all arm reads every body byte and keeps them with the name |
| AttributeProperties.UnknownBodyKept | src/classfile.rs:726-739 | a body whose name selects no decoder passes the exact-length check and is kept whole |
| AttributeProperties.UnknownKept | src/classfile.rs:726-729 | an unknown name is never rejected: the attribute is Unknown with that name and every body byte |
| AttributeProperties.ShortConstantValue | src/classfile.rs:540-543 | a ConstantValue body shorter than two bytes fails with UnexpectedEof from the body's read |
| ClassFiles.MemberAt | src/classfile.rs:513-527 | flags, name and descriptor are the first three u2 values, with attributes_count attributes after them; fewer than eight bytes is UnexpectedEof |
| ClassFiles.MemberList | src/classfile.rs:424-434 | the field or method loop keeps the members built so far and adds exactly n more |
| ClassFiles.MembersAt | src/classfile.rs:424-434 | fields_count (methods_count) members; no count is UnexpectedEof |
| ClassFiles.Decode | src/classfile.rs:402-450 | fewer than four bytes is UnexpectedEof; a first u4 other than 0xCAFEBABE is InvalidMagic carrying the value read; a decoded class file has the magic number and the minor and major versions as read, unchecked |
| ClassFiles.ParseMember | src/classfile.rs:513-527 | parse_field / parse_method compute MemberAt |
| ClassFiles.ParseMembers | src/classfile.rs:424-434 | the field or method loop computes MembersAt |
| ClassFiles.Parse | src/classfile.rs:402-450 | ClassFile::parse returns exactly Decode(bytes) |
| ClassFiles.MinimalEntries | src/classfile.rs:460-504 | the four entries of the minimal class (Utf8 "Test", Utf8 "java/lang/Object", Class #1, Class #2) decode to those entries at offsets 10, 17, 36 and 39 |
| ClassFiles.MinimalPoolDecodes | src/classfile.rs:453-511 | the minimal class's pool, read at byte 8 with count 5, is slot 0 empty followed by its four entries, and ends at byte 42 |
| ClassFiles.MinimalTailDecodes | src/classfile.rs:418-450 | after the minimal class's pool and header fields, the interface, field, method and attribute tables are empty and end at byte 56 |
| ClassFiles.MinimalClassDecodes | src/classfile.rs:402-450 | the minimal class (version 52.0, that pool, flags 0x0021, this_class #3, super_class #4, no interfaces, fields, methods or attributes) decodes to exactly those fields, and this_class and super_class resolve through their Class entries to "Test" and "java/lang/Object" |
| BitWords.WithBit | src/sys/jvmti.rs:319-323 | after setting (`\|=`) or clearing (`&= !`) bit i of a word, bit i reads back as the value written |
| BitWords.WithBitOther | src/sys/jvmti.rs:319-323 | setting or clearing bit i leaves every other bit of the word as it was |
| CapabilityBits.SetBitIn | src/sys/jvmti.rs:316-324 | set_bit(k, v) replaces word k/32 by that word with bit k%32 written as v and leaves the other three words as they were |
| CapabilityBits.GetAfterSet | src/sys/jvmti.rs:316-330 | after set_bit(k, v), get_bit(k) is v |
| CapabilityBits.SetKeepsOthers | src/sys/jvmti.rs:316-330 | set_bit(k, v) leaves every other bit of all four words unchanged |
| CapabilityBits.DefaultHasNoBits | src/sys/jvmti.rs:310-312 | in the all-zero default every bit reads false |
| Capabilities.Offset | src/sys/jvmti.rs:337-534 | every named capability's offset is below 45, so it lies within the four words |
| Capabilities.CapabilityAtOffset | src/sys/jvmti.rs:337-534 | an offset names its capability again: offsets and capabilities are in one-to-one correspondence |
| Capabilities.OffsetOfCapabilityAt | src/sys/jvmti.rs:337-534 | every offset 0..44 is used by exactly the capability declared at it |
| Capabilities.OffsetInjective | src/sys/jvmti.rs:337-534 | no two capabilities share a bit |
| Capabilities.OtherCapabilityKept | src/sys/jvmti.rs:337-534 | setting one capability's bit leaves every other capability's bit unchanged |
| Capabilities.JvmtiCapabilities.constructor | src/sys/jvmti.rs:310-312 | Default: a fresh four-word array of zeros, so no capability is set |
| Capabilities.JvmtiCapabilities.GetBit | src/sys/jvmti.rs:326-330 | get_bit(k) is true exactly when word k/32 of the array, masked with 1 << (k%32), is non-zero |
| Capabilities.JvmtiCapabilities.Can | src/sys/jvmti.rs:337-534 | can_X() is true exactly when the array word holding X's offset has the bit at that offset set |
| Capabilities.JvmtiCapabilities.SetBit | src/sys/jvmti.rs:316-324 | the in-place `\|=` / `&= !` update of word k/32 leaves the words equal to SetBitIn(old words, k, v) |
| Capabilities.JvmtiCapabilities.SetCapability | src/sys/jvmti.rs:337-534 | set_can_X(v) sets X's bit: afterwards can_X() is v, every other can_* is unchanged, and the words are SetBitIn at X's offset |

## Left out

- Float and Double constants are kept as their raw 32-bit and 64-bit patterns. `f32::from_bits` and `f64::from_bits` are not modelled, because IEEE floating point is outside the model.
- `String::from_utf8_lossy` is not modelled. A Utf8 constant keeps its raw bytes, and attribute names are dispatched through `Bytes.Text`, a one-char-per-byte view. This view agrees with the lossy decoding on ASCII, and every attribute name the decoder knows is ASCII. Any non-ASCII name, valid UTF-8 or not, is a different string under the byte view than under the lossy decoding; it still matches no known name either way, but the `name` carried by `Unknown` and `InvalidAttribute` is the byte view.
- The `Display` impl of `ClassFileError` is formatting only.
- `Vec::with_capacity` allocation and the `usize` conversions of counts are not modelled. All counts are at most 2^32 - 1, so no conversion truncates.
- Trailing bytes after the class attributes are ignored, as in the source. The model does not prove that the decode of a file is independent of bytes appended after it.
- ClassFiles.Decode: its own contract covers only the header (magic, versions, early end of input). Everything after the header is fixed by its body, whose parts carry their own contracts.
- Attributes.AttributeBody, Attributes.TableBody, Attributes.NestedBody, Attributes.WholeBody: their contracts state only where the body ends. What each name decodes to is stated by the AttributeProperties lemmas and by the methods that compute these functions.
- The 45 `set_can_*` / `can_*` pairs are modelled as one enum `Capability`, with an offset table `Offset`, the methods `SetCapability` and `Can`, and the inverse `CapabilityAt`. They are not 90 separate methods.
- Capabilities.JvmtiCapabilities.SetBit: requires k < 128, because every larger offset makes the source index past the fourth word and panic. Offsets are `bv32` rather than `usize`.
- Capabilities.JvmtiCapabilities.GetBit: requires k < 128 for the same reason: get_bit indexes word k/32 and panics past the fourth word. Offsets are `bv32` rather than `usize`.
- StackMap.Frame, StackMap.VerificationType: the tag dispatch of `parse_verification_type_info` and the per-frame match of `parse_stack_map_table`, with the Append and Full loops, are pure grammars rather than methods over the reader, so the model moves the position once per frame instead of read by read.
- Cursor.Reader.Read: on failure the position stays where it was, while a struct literal in the source has already moved past the fields it read before the failing one; no caller reads the position after an error, which ends the whole parse.
- The rest of `src/sys/jvmti.rs` (typedefs and the function table layout) and the other source files (`src/jvmti_wrapper.rs`, `src/jni_wrapper.rs`, `src/lib.rs`, `src/embed.rs` and the rest) are FFI and agent plumbing, and are not part of this model.

## Short attribute bodies

An attribute whose attribute_length is too short for its fields fails with the error of the first body read that runs out, not with `InvalidAttribute`. The body is read through a sub-reader bounded by attribute_length (src/classfile.rs:536-543), so a ConstantValue attribute with a length below two fails with `UnexpectedEof`. AttributeProperties.ShortConstantValue states this.
