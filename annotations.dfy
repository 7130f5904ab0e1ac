/**
 * Annotations and element values (sections 4.7.16 and 4.7.16.1 of the Java
 * Virtual Machine Specification), the grammar behind the
 * Runtime*Annotations, Runtime*ParameterAnnotations and AnnotationDefault
 * attributes (src/classfile.rs, `parse_annotations`,
 * `parse_parameter_annotations`, `parse_annotation`, `parse_element_value`).
 *
 * An element value can hold a nested annotation or an array of element
 * values, so the grammar is recursive; every recursive step starts past at
 * least one byte already read, which is what the decreases clauses measure.
 */
module Annotations {
  import opened Bytes
  import opened Results
  import opened Cursor
  import opened AttributeTypes

  /** The tags of constant element values: the primitive descriptors and 's' for String. */
  predicate ConstTag(t: u8) {
    t as char in "BCDFIJSZs"
  }

  /** Every tag an element_value may start with. */
  predicate ElementTag(t: u8) {
    ConstTag(t) || t as char in "ec@["
  }

  /** The tag byte t introduces an element value of v's kind (Table 4.7.16.1-A). */
  predicate TagDescribes(t: u8, v: ElementValue) {
    match v
    case Const(tag, _) => ConstTag(t) && tag == t
    case EnumConst(_, _) => t as char == 'e'
    case ClassInfo(_) => t as char == 'c'
    case AnnotationValue(_) => t as char == '@'
    case ArrayValue(_) => t as char == '['
  }

  /** element_value: a tag byte and the payload it selects; an unknown tag is rejected. */
  function ElementValueAt(d: seq<u8>, p: nat): (r: Result<Decoded<ElementValue>>)
    requires p <= |d|
    ensures Advances(r, d, p)
    decreases RemainingAt(d, p), 0
  {
    var tag :- U1(d, p);
    var t := d[p];
    var q := tag.next;
    if ConstTag(t) then
      var i :- U2(d, q);
      Ok(Decoded(Const(t, i.value), i.next))
    else if t as char == 'e' then
      var tn :- U2(d, q);
      var cn :- U2(d, tn.next);
      Ok(Decoded(EnumConst(tn.value, cn.value), cn.next))
    else if t as char == 'c' then
      var c :- U2(d, q);
      Ok(Decoded(ClassInfo(c.value), c.next))
    else if t as char == '@' then
      var a :- AnnotationAt(d, q);
      Ok(Decoded(AnnotationValue(a.value), a.next))
    else if t as char == '[' then
      var n :- U2(d, q);
      var vs :- ElementValues(d, n.next, n.value, []);
      Ok(Decoded(ArrayValue(vs.value), vs.next))
    else
      Err(InvalidAttribute("annotation"))
  }

  /**
   * The tag byte decides the kind: a decoded element value has the kind its
   * tag names, and a tag outside Table 4.7.16.1-A is rejected.
   */
  lemma ElementValueTag(d: seq<u8>, p: nat)
    requires p <= |d|
    ensures ElementValueAt(d, p).Ok? ==> p < |d| && TagDescribes(d[p], ElementValueAt(d, p).value.value)
    ensures p < |d| && !ElementTag(d[p]) ==> ElementValueAt(d, p) == Err(InvalidAttribute("annotation"))
    ensures p == |d| ==> ElementValueAt(d, p) == Err(UnexpectedEof)
  {
  }

  /**
   * The payload each tag selects (Table 4.7.16.1-A): a u2 constant index for
   * a constant tag, two u2 indices for 'e', one for 'c', a nested annotation
   * for '@' and a u2-counted list of element values for '['.
   */
  lemma ElementValuePayload(d: seq<u8>, p: nat)
    requires p < |d|
    ensures var r := ElementValueAt(d, p);
      && (ConstTag(d[p]) ==>
            r == if p + 3 <= |d| then Ok(Decoded(Const(d[p], BigEndian16(d, p + 1)), p + 3)) else Err(UnexpectedEof))
      && (d[p] as char == 'e' ==>
            r == if p + 5 <= |d| then Ok(Decoded(EnumConst(BigEndian16(d, p + 1), BigEndian16(d, p + 3)), p + 5)) else Err(UnexpectedEof))
      && (d[p] as char == 'c' ==>
            r == if p + 3 <= |d| then Ok(Decoded(ClassInfo(BigEndian16(d, p + 1)), p + 3)) else Err(UnexpectedEof))
      && (d[p] as char == '@' ==>
            var a := AnnotationAt(d, p + 1);
            r == if a.Ok? then Ok(Decoded(AnnotationValue(a.value.value), a.value.next)) else Err(a.error))
      && (d[p] as char == '[' && p + 3 > |d| ==> r == Err(UnexpectedEof))
      && (d[p] as char == '[' && p + 3 <= |d| ==>
            var vs := ElementValues(d, p + 3, BigEndian16(d, p + 1), []);
            r == if vs.Ok? then Ok(Decoded(ArrayValue(vs.value.value), vs.value.next)) else Err(vs.error))
  {
  }

  /** The value of a pair is the element value right after its name index. */
  lemma PairValue(d: seq<u8>, p: nat)
    requires p + 2 <= |d|
    ensures var v := ElementValueAt(d, p + 2);
      PairAt(d, p) == if v.Ok? then Ok(Decoded(ElementValuePair(BigEndian16(d, p), v.value.value), v.value.next)) else Err(v.error)
  {
  }

  /** The values of an array element value still to read after `acc`: n more element values. */
  function ElementValues(d: seq<u8>, p: nat, n: nat, acc: seq<ElementValue>): (r: Result<Decoded<seq<ElementValue>>>)
    requires p <= |d|
    ensures Advances(r, d, p)
    ensures r.Ok? ==> |r.value.value| == |acc| + n
    decreases RemainingAt(d, p), n
  {
    if n == 0 then Ok(Decoded(acc, p))
    else
      var v :- ElementValueAt(d, p);
      ElementValues(d, v.next, n - 1, acc + [v.value])
  }

  /** annotation: a u2 type index and a u2-counted list of name/value pairs. */
  function AnnotationAt(d: seq<u8>, p: nat): (r: Result<Decoded<Annotation>>)
    requires p <= |d|
    ensures Advances(r, d, p)
    ensures r.Ok? ==> p + 4 <= |d| && r.value.value.typeIndex == BigEndian16(d, p)
                      && |r.value.value.elementValuePairs| == BigEndian16(d, p + 2)
    ensures p + 4 > |d| ==> r == Err(UnexpectedEof)
    decreases RemainingAt(d, p), 0
  {
    var ti :- U2(d, p);
    var n :- U2(d, ti.next);
    var pairs :- ElementValuePairs(d, n.next, n.value, []);
    Ok(Decoded(Annotation(ti.value, pairs.value), pairs.next))
  }

  /** The element_value_pairs still to read after `acc`: n more pairs. */
  function ElementValuePairs(d: seq<u8>, p: nat, n: nat, acc: seq<ElementValuePair>): (r: Result<Decoded<seq<ElementValuePair>>>)
    requires p <= |d|
    ensures Advances(r, d, p)
    ensures r.Ok? ==> |r.value.value| == |acc| + n
    decreases RemainingAt(d, p), n
  {
    if n == 0 then Ok(Decoded(acc, p))
    else
      var pair :- PairAt(d, p);
      ElementValuePairs(d, pair.next, n - 1, acc + [pair.value])
  }

  /** element_value_pair: a u2 element name index, then an element value. */
  function PairAt(d: seq<u8>, p: nat): (r: Result<Decoded<ElementValuePair>>)
    requires p <= |d|
    ensures Advances(r, d, p)
    ensures r.Ok? ==> p + 2 <= |d| && r.value.value.elementNameIndex == BigEndian16(d, p)
    ensures p + 2 > |d| ==> r == Err(UnexpectedEof)
    decreases RemainingAt(d, p), 0
  {
    var name :- U2(d, p);
    var v :- ElementValueAt(d, name.next);
    Ok(Decoded(ElementValuePair(name.value, v.value), v.next))
  }

  /** The annotations still to read after `acc`: n more annotations. */
  function Annotations(d: seq<u8>, p: nat, n: nat, acc: seq<Annotation>): (r: Result<Decoded<seq<Annotation>>>)
    requires p <= |d|
    ensures Advances(r, d, p)
    ensures r.Ok? ==> |r.value.value| == |acc| + n
    decreases n
  {
    if n == 0 then Ok(Decoded(acc, p))
    else
      var a :- AnnotationAt(d, p);
      Annotations(d, a.next, n - 1, acc + [a.value])
  }

  /** The body of Runtime{Visible,Invisible}Annotations: a u2 count of annotations. */
  function AnnotationsAt(d: seq<u8>, p: nat): (r: Result<Decoded<seq<Annotation>>>)
    requires p <= |d|
    ensures Advances(r, d, p)
    ensures r.Ok? ==> p + 2 <= |d| && |r.value.value| == BigEndian16(d, p)
    ensures p + 2 > |d| ==> r == Err(UnexpectedEof)
  {
    var n :- U2(d, p);
    Annotations(d, n.next, n.value, [])
  }

  /** The parameters' annotation lists still to read after `acc`: n more lists. */
  function ParameterAnnotations(d: seq<u8>, p: nat, n: nat, acc: seq<seq<Annotation>>): (r: Result<Decoded<seq<seq<Annotation>>>>)
    requires p <= |d|
    ensures Advances(r, d, p)
    ensures r.Ok? ==> |r.value.value| == |acc| + n
    decreases n
  {
    if n == 0 then Ok(Decoded(acc, p))
    else
      var k :- U2(d, p);
      var a :- Annotations(d, k.next, k.value, []);
      ParameterAnnotations(d, a.next, n - 1, acc + [a.value])
  }

  /**
   * The body of Runtime{Visible,Invisible}ParameterAnnotations: a u1 count of
   * parameters, then one u2-counted annotation list per parameter.
   */
  function ParameterAnnotationsAt(d: seq<u8>, p: nat): (r: Result<Decoded<seq<seq<Annotation>>>>)
    requires p <= |d|
    ensures Advances(r, d, p)
    ensures r.Ok? ==> p < |d| && |r.value.value| == d[p]
    ensures p == |d| ==> r == Err(UnexpectedEof)
  {
    var n :- U1(d, p);
    ParameterAnnotations(d, n.next, n.value, [])
  }

  /** parse_element_value: the tag, then the payload; an array loops over its values. */
  method ParseElementValue(r: Reader) returns (res: Result<ElementValue>)
    requires r.Valid()
    modifies r
    ensures r.Valid() && Follows(ElementValueAt(r.data, old(r.pos)), res, r.pos)
    decreases r.Remaining(), 0
  {
    var t :- r.ReadU1();
    if ConstTag(t) {
      var i :- r.ReadU2();
      return Ok(Const(t, i));
    } else if t as char == 'e' {
      var tn :- r.ReadU2();
      var cn :- r.ReadU2();
      return Ok(EnumConst(tn, cn));
    } else if t as char == 'c' {
      var c :- r.ReadU2();
      return Ok(ClassInfo(c));
    } else if t as char == '@' {
      var a :- ParseAnnotation(r);
      return Ok(AnnotationValue(a));
    } else if t as char == '[' {
      var n :- r.ReadU2();
      var values :- ParseElementValueArray(r, n);
      return Ok(ArrayValue(values));
    } else {
      return Err(InvalidAttribute("annotation"));
    }
  }

  /** The loop that reads the n values of an array element value. */
  method ParseElementValueArray(r: Reader, n: nat) returns (res: Result<seq<ElementValue>>)
    requires r.Valid()
    modifies r
    ensures r.Valid() && Follows(ElementValues(r.data, old(r.pos), n, []), res, r.pos)
    decreases r.Remaining(), n
  {
    ghost var start := r.pos;
    var values: seq<ElementValue> := [];
    var i := 0;
    while i < n
      invariant i <= n && r.Valid() && start <= r.pos
      invariant ElementValues(r.data, start, n, []) == ElementValues(r.data, r.pos, n - i, values)
    {
      ghost var here := r.pos;
      var v := ParseElementValue(r);
      if v.Err? {
        assert ElementValues(r.data, here, n - i, values) == Err(v.error);
        return Err(v.error);
      }
      assert ElementValues(r.data, here, n - i, values) == ElementValues(r.data, r.pos, n - i - 1, values + [v.value]);
      values := values + [v.value];
      i := i + 1;
    }
    return Ok(values);
  }

  /**
   * The loop that reads n element_value_pairs; parse_annotation and
   * parse_type_annotations both run it after the pair count.
   */
  method ParseElementValuePairs(r: Reader, n: nat) returns (res: Result<seq<ElementValuePair>>)
    requires r.Valid()
    modifies r
    ensures r.Valid() && Follows(ElementValuePairs(r.data, old(r.pos), n, []), res, r.pos)
    decreases r.Remaining(), n
  {
    ghost var start := r.pos;
    var pairs: seq<ElementValuePair> := [];
    var i := 0;
    while i < n
      invariant i <= n && r.Valid() && start <= r.pos
      invariant ElementValuePairs(r.data, start, n, []) == ElementValuePairs(r.data, r.pos, n - i, pairs)
    {
      ghost var here := r.pos;
      var pair := ParsePair(r);
      if pair.Err? {
        assert ElementValuePairs(r.data, here, n - i, pairs) == Err(pair.error);
        return Err(pair.error);
      }
      assert ElementValuePairs(r.data, here, n - i, pairs) == ElementValuePairs(r.data, r.pos, n - i - 1, pairs + [pair.value]);
      pairs := pairs + [pair.value];
      i := i + 1;
    }
    return Ok(pairs);
  }

  /** One pair of the loop in parse_annotation: the name index, then the value. */
  method ParsePair(r: Reader) returns (res: Result<ElementValuePair>)
    requires r.Valid()
    modifies r
    ensures r.Valid() && Follows(PairAt(r.data, old(r.pos)), res, r.pos)
    decreases r.Remaining(), 0
  {
    var name :- r.ReadU2();
    var v :- ParseElementValue(r);
    return Ok(ElementValuePair(name, v));
  }

  /** parse_annotation: the type index, the pair count, then the pairs. */
  method ParseAnnotation(r: Reader) returns (res: Result<Annotation>)
    requires r.Valid()
    modifies r
    ensures r.Valid() && Follows(AnnotationAt(r.data, old(r.pos)), res, r.pos)
    decreases r.Remaining(), 0
  {
    var typeIndex :- r.ReadU2();
    var n :- r.ReadU2();
    var pairs :- ParseElementValuePairs(r, n);
    return Ok(Annotation(typeIndex, pairs));
  }

  /** parse_annotations: a u2 count, then that many annotations. */
  method ParseAnnotations(r: Reader) returns (res: Result<seq<Annotation>>)
    requires r.Valid()
    modifies r
    ensures r.Valid() && Follows(AnnotationsAt(r.data, old(r.pos)), res, r.pos)
  {
    var n :- r.ReadU2();
    res := ParseAnnotationList(r, n);
  }

  /** The loop of parse_annotations: n annotations, pushed in order. */
  method ParseAnnotationList(r: Reader, n: nat) returns (res: Result<seq<Annotation>>)
    requires r.Valid()
    modifies r
    ensures r.Valid() && Follows(Annotations(r.data, old(r.pos), n, []), res, r.pos)
  {
    ghost var start := r.pos;
    var annotations: seq<Annotation> := [];
    var i := 0;
    while i < n
      invariant i <= n && r.Valid()
      invariant Annotations(r.data, start, n, []) == Annotations(r.data, r.pos, n - i, annotations)
    {
      ghost var here := r.pos;
      var a := ParseAnnotation(r);
      if a.Err? {
        assert Annotations(r.data, here, n - i, annotations) == Err(a.error);
        return Err(a.error);
      }
      assert Annotations(r.data, here, n - i, annotations) == Annotations(r.data, r.pos, n - i - 1, annotations + [a.value]);
      annotations := annotations + [a.value];
      i := i + 1;
    }
    return Ok(annotations);
  }

  /** parse_parameter_annotations: a u1 parameter count, then one annotation list per parameter. */
  method ParseParameterAnnotations(r: Reader) returns (res: Result<seq<seq<Annotation>>>)
    requires r.Valid()
    modifies r
    ensures r.Valid() && Follows(ParameterAnnotationsAt(r.data, old(r.pos)), res, r.pos)
  {
    var n :- r.ReadU1();
    ghost var start := r.pos;
    assert ParameterAnnotationsAt(r.data, old(r.pos)) == ParameterAnnotations(r.data, start, n, []);
    var out: seq<seq<Annotation>> := [];
    var i := 0;
    while i < n
      invariant i <= n && r.Valid()
      invariant ParameterAnnotations(r.data, start, n, []) == ParameterAnnotations(r.data, r.pos, n - i, out)
    {
      ghost var here := r.pos;
      var k := r.ReadU2();
      if k.Err? {
        assert ParameterAnnotations(r.data, here, n - i, out) == Err(k.error);
        return Err(k.error);
      }
      var annotations := ParseAnnotationList(r, k.value);
      if annotations.Err? {
        assert ParameterAnnotations(r.data, here, n - i, out) == Err(annotations.error);
        return Err(annotations.error);
      }
      assert ParameterAnnotations(r.data, here, n - i, out)
          == ParameterAnnotations(r.data, r.pos, n - i - 1, out + [annotations.value]);
      out := out + [annotations.value];
      i := i + 1;
    }
    return Ok(out);
  }
}
