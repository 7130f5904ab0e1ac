/**
 * Type annotations (section 4.7.20 of the Java Virtual Machine
 * Specification): target_info selected by the target_type byte, type_path,
 * and the annotation part they share with plain annotations
 * (src/classfile.rs, `parse_type_annotations`, `parse_target_info`,
 * `parse_type_path`).
 */
module TypeAnnotations {
  import opened Bytes
  import opened Results
  import opened Cursor
  import opened AttributeTypes
  import opened Annotations

  /** The target_type values the decoder accepts (Tables 4.7.20-A and 4.7.20-B). */
  predicate KnownTargetType(tt: u8) {
    tt in {0x00, 0x01, 0x10, 0x11, 0x12, 0x13, 0x14, 0x15, 0x16, 0x17,
           0x40, 0x41, 0x42, 0x43, 0x44, 0x45, 0x46, 0x47, 0x48, 0x49, 0x4A, 0x4B}
  }

  /** The target_info shape that each target_type selects. */
  predicate TargetMatches(tt: u8, info: TargetInfo) {
    match info
    case TypeParameter(_) => tt == 0x00 || tt == 0x01
    case Supertype(_) => tt == 0x10
    case TypeParameterBound(_, _) => tt == 0x11 || tt == 0x12
    case Empty => 0x13 <= tt <= 0x15
    case FormalParameter(_) => tt == 0x16
    case Throws(_) => tt == 0x17
    case Localvar(_) => tt == 0x40 || tt == 0x41
    case Catch(_) => tt == 0x42
    case Offset(_) => 0x43 <= tt <= 0x46
    case TypeArgument(_, _) => 0x47 <= tt <= 0x4B
  }

  /** One localvar_target table entry: start_pc, length, index. */
  function LocalVarTargetAt(d: seq<u8>, p: nat): (r: Result<Decoded<LocalVarTarget>>)
    requires p <= |d|
    ensures Advances(r, d, p)
    ensures r.Ok? <==> p + 6 <= |d|
    ensures r.Ok? ==> r.value == Decoded(LocalVarTarget(BigEndian16(d, p), BigEndian16(d, p + 2), BigEndian16(d, p + 4)), p + 6)
    ensures r.Err? ==> r.error == UnexpectedEof
  {
    var s :- U2(d, p);
    var l :- U2(d, s.next);
    var i :- U2(d, l.next);
    Ok(Decoded(LocalVarTarget(s.value, l.value, i.value), i.next))
  }

  lemma LocalVarTargetAdvancing()
    ensures Advancing(LocalVarTargetAt) && FixedWidth(LocalVarTargetAt, 6)
  {
  }

  /** target_info for a given target_type; any other target_type is rejected. */
  function TargetInfoAt(d: seq<u8>, p: nat, tt: u8): (r: Result<Decoded<TargetInfo>>)
    requires p <= |d|
    ensures Advances(r, d, p)
    ensures r.Ok? ==> TargetMatches(tt, r.value.value)
    ensures !KnownTargetType(tt) ==> r == Err(InvalidAttribute("type_annotation"))
    ensures KnownTargetType(tt) && r.Err? ==> r.error == UnexpectedEof
    ensures tt == 0x00 || tt == 0x01 ==>
              r == if p + 1 <= |d| then Ok(Decoded(TypeParameter(d[p]), p + 1)) else Err(UnexpectedEof)
    ensures tt == 0x10 ==>
              r == if p + 2 <= |d| then Ok(Decoded(Supertype(BigEndian16(d, p)), p + 2)) else Err(UnexpectedEof)
    ensures tt == 0x11 || tt == 0x12 ==>
              r == if p + 2 <= |d| then Ok(Decoded(TypeParameterBound(d[p], d[p + 1]), p + 2)) else Err(UnexpectedEof)
    ensures 0x13 <= tt <= 0x15 ==> r == Ok(Decoded(Empty, p))
    ensures tt == 0x16 ==>
              r == if p + 1 <= |d| then Ok(Decoded(FormalParameter(d[p]), p + 1)) else Err(UnexpectedEof)
    ensures tt == 0x17 ==>
              r == if p + 2 <= |d| then Ok(Decoded(Throws(BigEndian16(d, p)), p + 2)) else Err(UnexpectedEof)
    ensures tt == 0x40 || tt == 0x41 ==> (r.Ok? <==> p + 2 <= |d| && p + 2 + 6 * BigEndian16(d, p) <= |d|)
    ensures (tt == 0x40 || tt == 0x41) && r.Ok? ==>
              r.value.next == p + 2 + 6 * BigEndian16(d, p) && r.value.value.Localvar? &&
              |r.value.value.table| == BigEndian16(d, p) &&
              forall i | 0 <= i < BigEndian16(d, p) ::
                r.value.value.table[i] == LocalVarTarget(BigEndian16(d, p + 2 + 6 * i), BigEndian16(d, p + 4 + 6 * i), BigEndian16(d, p + 6 + 6 * i))
    ensures tt == 0x42 ==>
              r == if p + 2 <= |d| then Ok(Decoded(Catch(BigEndian16(d, p)), p + 2)) else Err(UnexpectedEof)
    ensures 0x43 <= tt <= 0x46 ==>
              r == if p + 2 <= |d| then Ok(Decoded(Offset(BigEndian16(d, p)), p + 2)) else Err(UnexpectedEof)
    ensures 0x47 <= tt <= 0x4B ==>
              r == if p + 3 <= |d| then Ok(Decoded(TypeArgument(BigEndian16(d, p), d[p + 2]), p + 3)) else Err(UnexpectedEof)
  {
    if tt == 0x00 || tt == 0x01 then
      var i :- U1(d, p);
      Ok(Decoded(TypeParameter(i.value), i.next))
    else if tt == 0x10 then
      var i :- U2(d, p);
      Ok(Decoded(Supertype(i.value), i.next))
    else if tt == 0x11 || tt == 0x12 then
      var t :- U1(d, p);
      var b :- U1(d, t.next);
      Ok(Decoded(TypeParameterBound(t.value, b.value), b.next))
    else if 0x13 <= tt <= 0x15 then
      Ok(Decoded(Empty, p))
    else if tt == 0x16 then
      var i :- U1(d, p);
      Ok(Decoded(FormalParameter(i.value), i.next))
    else if tt == 0x17 then
      var i :- U2(d, p);
      Ok(Decoded(Throws(i.value), i.next))
    else if tt == 0x40 || tt == 0x41 then
      LocalVarTargetAdvancing();
      TableFixed(LocalVarTargetAt, 6, d, p);
      var table :- Table(LocalVarTargetAt, d, p);
      Ok(Decoded(Localvar(table.value), table.next))
    else if tt == 0x42 then
      var i :- U2(d, p);
      Ok(Decoded(Catch(i.value), i.next))
    else if 0x43 <= tt <= 0x46 then
      var o :- U2(d, p);
      Ok(Decoded(Offset(o.value), o.next))
    else if 0x47 <= tt <= 0x4B then
      var o :- U2(d, p);
      var a :- U1(d, o.next);
      Ok(Decoded(TypeArgument(o.value, a.value), a.next))
    else
      Err(InvalidAttribute("type_annotation"))
  }

  /** One type_path step: type_path_kind, type_argument_index. */
  function TypePathEntryAt(d: seq<u8>, p: nat): (r: Result<Decoded<TypePathEntry>>)
    requires p <= |d|
    ensures Advances(r, d, p)
    ensures r.Ok? <==> p + 2 <= |d|
    ensures r.Ok? ==> r.value == Decoded(TypePathEntry(d[p], d[p + 1]), p + 2)
    ensures r.Err? ==> r.error == UnexpectedEof
  {
    var k :- U1(d, p);
    var a :- U1(d, k.next);
    Ok(Decoded(TypePathEntry(k.value, a.value), a.next))
  }

  lemma TypePathEntryAdvancing()
    ensures Advancing(TypePathEntryAt) && FixedWidth(TypePathEntryAt, 2)
  {
  }

  /** type_path: a u1 path length, then that many two-byte steps. */
  function TypePathAt(d: seq<u8>, p: nat): (r: Result<Decoded<seq<TypePathEntry>>>)
    requires p <= |d|
    ensures Advances(r, d, p)
    ensures r.Ok? <==> p < |d| && p + 1 + 2 * (d[p] as int) <= |d|
    ensures r.Ok? ==> |r.value.value| == d[p] && r.value.next == p + 1 + 2 * (d[p] as int)
    ensures r.Ok? ==> forall i | 0 <= i < d[p] :: r.value.value[i] == TypePathEntry(d[p + 1 + 2 * i], d[p + 2 + 2 * i])
    ensures r.Err? ==> r.error == UnexpectedEof
  {
    var n :- U1(d, p);
    TypePathEntryAdvancing();
    RepeatFixed(TypePathEntryAt, 2, d, n.next, d[p], []);
    RepeatFrom(TypePathEntryAt, d, n.next, d[p], [])
  }

  /**
   * One type_annotation: target_type, target_info, type_path, type_index
   * and a u2-counted list of element_value_pairs.
   */
  function TypeAnnotationAt(d: seq<u8>, p: nat): (r: Result<Decoded<TypeAnnotation>>)
    requires p <= |d|
    ensures Advances(r, d, p)
    ensures p == |d| ==> r == Err(UnexpectedEof)
  {
    var tt :- U1(d, p);
    var info :- TargetInfoAt(d, tt.next, tt.value);
    var path :- TypePathAt(d, info.next);
    var ti :- U2(d, path.next);
    var k :- U2(d, ti.next);
    var pairs :- ElementValuePairs(d, k.next, k.value, []);
    Ok(Decoded(TypeAnnotation(tt.value, info.value, path.value, ti.value, pairs.value), pairs.next))
  }

  /**
   * The fields of a decoded type annotation, in the order they are read:
   * target_type at p, the target_info it selects right after it, the
   * type_path after that, then type_index and the element_value_pairs with
   * their u2 count.
   */
  lemma TypeAnnotationFields(d: seq<u8>, p: nat)
    requires p <= |d|
    ensures var r := TypeAnnotationAt(d, p);
      r.Ok? ==>
              p < |d| && TargetInfoAt(d, p + 1, d[p]).Ok? &&
              var info := TargetInfoAt(d, p + 1, d[p]).value;
              TypePathAt(d, info.next).Ok? &&
              var path := TypePathAt(d, info.next).value;
              path.next + 4 <= |d| &&
              ElementValuePairs(d, path.next + 4, BigEndian16(d, path.next + 2), []).Ok? &&
              var pairs := ElementValuePairs(d, path.next + 4, BigEndian16(d, path.next + 2), []).value;
              var a := r.value.value;
              a.targetType == d[p] && a.targetInfo == info.value && a.targetPath == path.value &&
              a.typeIndex == BigEndian16(d, path.next) && a.elementValuePairs == pairs.value &&
              |a.elementValuePairs| == BigEndian16(d, path.next + 2) && r.value.next == pairs.next
  {
  }

  /** The type annotations still to read after `acc`: n more. */
  function TypeAnnotations(d: seq<u8>, p: nat, n: nat, acc: seq<TypeAnnotation>): (r: Result<Decoded<seq<TypeAnnotation>>>)
    requires p <= |d|
    ensures Advances(r, d, p)
    ensures r.Ok? ==> |r.value.value| == |acc| + n
    decreases n
  {
    if n == 0 then Ok(Decoded(acc, p))
    else
      var a :- TypeAnnotationAt(d, p);
      TypeAnnotations(d, a.next, n - 1, acc + [a.value])
  }

  /** Decoding more type annotations keeps the ones already decoded. */
  lemma {:induction false} TypeAnnotationsKeep(d: seq<u8>, p: nat, n: nat, acc: seq<TypeAnnotation>)
    requires p <= |d|
    ensures TypeAnnotations(d, p, n, acc).Ok? ==> TypeAnnotations(d, p, n, acc).value.value[..|acc|] == acc
    decreases n
  {
    if n > 0 && TypeAnnotations(d, p, n, acc).Ok? {
      var a := TypeAnnotationAt(d, p).value;
      TypeAnnotationsKeep(d, a.next, n - 1, acc + [a.value]);
      assert (acc + [a.value])[..|acc|] == acc;
    }
  }

  /** The next type annotation after acc is the one that starts at p. */
  lemma TypeAnnotationNext(d: seq<u8>, p: nat, n: nat, acc: seq<TypeAnnotation>)
    requires p <= |d| && n > 0
    ensures var r := TypeAnnotations(d, p, n, acc);
      r.Ok? ==> TypeAnnotationAt(d, p).Ok? && r.value.value[|acc|] == TypeAnnotationAt(d, p).value.value
  {
    var r := TypeAnnotations(d, p, n, acc);
    if r.Ok? {
      var a := TypeAnnotationAt(d, p).value;
      TypeAnnotationsKeep(d, a.next, n - 1, acc + [a.value]);
      assert r.value.value[..|acc| + 1] == acc + [a.value];
      assert r.value.value[|acc|] == (acc + [a.value])[|acc|];
    }
  }

  /** The body of Runtime{Visible,Invisible}TypeAnnotations: a u2 count of type annotations. */
  function TypeAnnotationsAt(d: seq<u8>, p: nat): (r: Result<Decoded<seq<TypeAnnotation>>>)
    requires p <= |d|
    ensures Advances(r, d, p)
    ensures r.Ok? ==> p + 2 <= |d| && |r.value.value| == BigEndian16(d, p)
    ensures p + 2 > |d| ==> r == Err(UnexpectedEof)
  {
    var n :- U2(d, p);
    TypeAnnotations(d, n.next, n.value, [])
  }

  /** parse_target_info: the payload the target_type selects. */
  method ParseTargetInfo(r: Reader, tt: u8) returns (res: Result<TargetInfo>)
    requires r.Valid()
    modifies r
    ensures r.Valid() && Follows(TargetInfoAt(r.data, old(r.pos), tt), res, r.pos)
  {
    if tt == 0x00 || tt == 0x01 {
      var i :- r.ReadU1();
      return Ok(TypeParameter(i));
    } else if tt == 0x10 {
      var i :- r.ReadU2();
      return Ok(Supertype(i));
    } else if tt == 0x11 || tt == 0x12 {
      var t :- r.ReadU1();
      var b :- r.ReadU1();
      return Ok(TypeParameterBound(t, b));
    } else if 0x13 <= tt <= 0x15 {
      return Ok(Empty);
    } else if tt == 0x16 {
      var i :- r.ReadU1();
      return Ok(FormalParameter(i));
    } else if tt == 0x17 {
      var i :- r.ReadU2();
      return Ok(Throws(i));
    } else if tt == 0x40 || tt == 0x41 {
      LocalVarTargetAdvancing();
      var table :- ReadTable(r, LocalVarTargetAt);
      return Ok(Localvar(table));
    } else if tt == 0x42 {
      var i :- r.ReadU2();
      return Ok(Catch(i));
    } else if 0x43 <= tt <= 0x46 {
      var o :- r.ReadU2();
      return Ok(Offset(o));
    } else if 0x47 <= tt <= 0x4B {
      var o :- r.ReadU2();
      var a :- r.ReadU1();
      return Ok(TypeArgument(o, a));
    } else {
      return Err(InvalidAttribute("type_annotation"));
    }
  }

  /** parse_type_path: a u1 length, then that many steps. */
  method ParseTypePath(r: Reader) returns (res: Result<seq<TypePathEntry>>)
    requires r.Valid()
    modifies r
    ensures r.Valid() && Follows(TypePathAt(r.data, old(r.pos)), res, r.pos)
  {
    TypePathEntryAdvancing();
    var n :- r.ReadU1();
    res := ReadList(r, TypePathEntryAt, n);
  }

  /** One type_annotation: the body of the parse_type_annotations loop. */
  method ParseTypeAnnotation(r: Reader, ghost n: nat, ghost acc: seq<TypeAnnotation>) returns (res: Result<TypeAnnotation>)
    requires r.Valid() && n > 0
    modifies r
    ensures r.Valid() && Follows(TypeAnnotationAt(r.data, old(r.pos)), res, r.pos)
    ensures res.Ok? ==> TypeAnnotations(r.data, old(r.pos), n, acc) == TypeAnnotations(r.data, r.pos, n - 1, acc + [res.value])
    ensures res.Err? ==> TypeAnnotations(r.data, old(r.pos), n, acc) == Err(res.error)
  {
    var targetType :- r.ReadU1();
    var targetInfo :- ParseTargetInfo(r, targetType);
    var targetPath :- ParseTypePath(r);
    var typeIndex :- r.ReadU2();
    var k :- r.ReadU2();
    var pairs :- ParseElementValuePairs(r, k);
    return Ok(TypeAnnotation(targetType, targetInfo, targetPath, typeIndex, pairs));
  }

  /** The parse_type_annotations loop: n type annotations, one per iteration. */
  method ParseTypeAnnotationList(r: Reader, n: nat) returns (res: Result<seq<TypeAnnotation>>)
    requires r.Valid()
    modifies r
    ensures r.Valid() && Follows(TypeAnnotations(r.data, old(r.pos), n, []), res, r.pos)
  {
    ghost var start := r.pos;
    var out: seq<TypeAnnotation> := [];
    var i := 0;
    while i < n
      invariant i <= n && r.Valid()
      invariant TypeAnnotations(r.data, start, n, []) == TypeAnnotations(r.data, r.pos, n - i, out)
    {
      var a :- ParseTypeAnnotation(r, n - i, out);
      out := out + [a];
      i := i + 1;
    }
    return Ok(out);
  }

  /** parse_type_annotations: a u2 count, then that many type annotations. */
  method ParseTypeAnnotations(r: Reader) returns (res: Result<seq<TypeAnnotation>>)
    requires r.Valid()
    modifies r
    ensures r.Valid() && Follows(TypeAnnotationsAt(r.data, old(r.pos)), res, r.pos)
  {
    var n :- r.ReadU2();
    res := ParseTypeAnnotationList(r, n);
  }
}
