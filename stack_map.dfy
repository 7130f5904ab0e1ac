/**
 * The StackMapTable attribute (section 4.7.4 of the Java Virtual Machine
 * Specification): frame-type dispatch and verification_type_info
 * (src/classfile.rs, `parse_stack_map_table`, `parse_verification_type_info`).
 */
module StackMap {
  import opened Bytes
  import opened Results
  import opened Cursor
  import opened AttributeTypes

  /** The tag byte that selects each verification type. */
  function VerificationTag(v: VerificationTypeInfo): u8 {
    match v
    case TopVariable => 0
    case IntegerVariable => 1
    case FloatVariable => 2
    case DoubleVariable => 3
    case LongVariable => 4
    case NullVariable => 5
    case UninitializedThisVariable => 6
    case ObjectVariable(_) => 7
    case UninitializedVariable(_) => 8
  }

  /** The frame_type byte that encodes a frame of this shape. */
  function FrameType(f: StackMapFrame): int {
    match f
    case Same(offsetDelta) => offsetDelta
    case SameLocals1StackItem(offsetDelta, _) => 64 + offsetDelta
    case SameLocals1StackItemExtended(_, _) => 247
    case Chop(_, k) => 251 - k
    case SameExtended(_) => 251
    case Append(_, locals) => 251 + |locals|
    case Full(_, _, _) => 255
  }

  /**
   * The constraints the frame-type encoding puts on a frame: a Same or
   * SameLocals1StackItem delta fits in the type byte, Chop drops one to three
   * locals, Append adds one to three, Full's lists have u2 counts.
   */
  predicate WellFormedFrame(f: StackMapFrame) {
    match f
    case Same(offsetDelta) => offsetDelta <= 63
    case SameLocals1StackItem(offsetDelta, _) => offsetDelta <= 63
    case SameLocals1StackItemExtended(_, _) => true
    case Chop(_, k) => 1 <= k <= 3
    case SameExtended(_) => true
    case Append(_, locals) => 1 <= |locals| <= 3
    case Full(_, locals, stack) => |locals| <= 0xFFFF && |stack| <= 0xFFFF
  }

  /** verification_type_info: a tag 0 .. 8, Object and Uninitialized followed by a u2. */
  function VerificationType(d: seq<u8>, p: nat): (r: Result<Decoded<VerificationTypeInfo>>)
    requires p <= |d|
    ensures Advances(r, d, p)
    ensures r.Ok? ==> p < |d| && VerificationTag(r.value.value) == d[p]
    ensures p < |d| && d[p] <= 6 ==> r.Ok? && r.value.next == p + 1
    ensures p < |d| && d[p] == 7 ==>
              r == if p + 3 <= |d| then Ok(Decoded(ObjectVariable(BigEndian16(d, p + 1)), p + 3)) else Err(UnexpectedEof)
    ensures p < |d| && d[p] == 8 ==>
              r == if p + 3 <= |d| then Ok(Decoded(UninitializedVariable(BigEndian16(d, p + 1)), p + 3)) else Err(UnexpectedEof)
    ensures p < |d| && d[p] > 8 ==> r == Err(InvalidAttribute("StackMapTable"))
    ensures p == |d| ==> r == Err(UnexpectedEof)
  {
    var tag :- U1(d, p);
    match tag.value
    case 0 => Ok(Decoded(TopVariable, tag.next))
    case 1 => Ok(Decoded(IntegerVariable, tag.next))
    case 2 => Ok(Decoded(FloatVariable, tag.next))
    case 3 => Ok(Decoded(DoubleVariable, tag.next))
    case 4 => Ok(Decoded(LongVariable, tag.next))
    case 5 => Ok(Decoded(NullVariable, tag.next))
    case 6 => Ok(Decoded(UninitializedThisVariable, tag.next))
    case 7 =>
      var i :- U2(d, tag.next);
      Ok(Decoded(ObjectVariable(i.value), i.next))
    case 8 =>
      var i :- U2(d, tag.next);
      Ok(Decoded(UninitializedVariable(i.value), i.next))
    case _ => Err(InvalidAttribute("StackMapTable"))
  }

  /**
   * stack_map_frame: the frame_type byte picks the shape by range; 128 .. 246
   * are reserved and rejected.
   */
  function Frame(d: seq<u8>, p: nat): (r: Result<Decoded<StackMapFrame>>)
    requires p <= |d|
    ensures Advances(r, d, p)
    ensures r.Ok? ==> p < |d| && FrameType(r.value.value) == d[p] && WellFormedFrame(r.value.value)
    ensures p < |d| && 128 <= d[p] <= 246 ==> r == Err(InvalidAttribute("StackMapTable"))
    ensures p == |d| ==> r == Err(UnexpectedEof)
    ensures p < |d| && d[p] <= 63 ==> r == Ok(Decoded(Same(d[p] as int), p + 1))
    ensures p < |d| && 64 <= d[p] <= 127 ==>
              (r.Ok? <==> VerificationType(d, p + 1).Ok?) &&
              (r.Ok? ==> r.value == Decoded(SameLocals1StackItem(d[p] as int - 64, VerificationType(d, p + 1).value.value), VerificationType(d, p + 1).value.next)) &&
              (r.Err? ==> r.error == VerificationType(d, p + 1).error)
    ensures p < |d| && d[p] == 247 ==>
              (r.Ok? <==> p + 3 <= |d| && VerificationType(d, p + 3).Ok?) &&
              (r.Ok? ==> r.value == Decoded(SameLocals1StackItemExtended(BigEndian16(d, p + 1), VerificationType(d, p + 3).value.value), VerificationType(d, p + 3).value.next))
    ensures p < |d| && 248 <= d[p] <= 250 ==>
              r == if p + 3 <= |d| then Ok(Decoded(Chop(BigEndian16(d, p + 1), 251 - d[p] as int), p + 3)) else Err(UnexpectedEof)
    ensures p < |d| && d[p] == 251 ==>
              r == if p + 3 <= |d| then Ok(Decoded(SameExtended(BigEndian16(d, p + 1)), p + 3)) else Err(UnexpectedEof)
    ensures p < |d| && 252 <= d[p] <= 254 && r.Ok? ==>
              p + 3 <= |d| && Repeat(VerificationType, d, p + 3, d[p] as int - 251).Ok? &&
              r.value == Decoded(Append(BigEndian16(d, p + 1), Repeat(VerificationType, d, p + 3, d[p] as int - 251).value.value),
                                 Repeat(VerificationType, d, p + 3, d[p] as int - 251).value.next)
    ensures p < |d| && d[p] == 255 && r.Ok? ==>
              p + 3 <= |d| && Table(VerificationType, d, p + 3).Ok? &&
              var locals := Table(VerificationType, d, p + 3).value;
              Table(VerificationType, d, locals.next).Ok? &&
              var stack := Table(VerificationType, d, locals.next).value;
              r.value == Decoded(Full(BigEndian16(d, p + 1), locals.value, stack.value), stack.next)
    ensures p < |d| && d[p] >= 247 && p + 3 > |d| ==> r == Err(UnexpectedEof)
  {
    var ft :- U1(d, p);
    var t := ft.value;
    var q := ft.next;
    if t <= 63 then
      Ok(Decoded(Same(t), q))
    else if t <= 127 then
      var s :- VerificationType(d, q);
      Ok(Decoded(SameLocals1StackItem(t - 64, s.value), s.next))
    else if t == 247 then
      var o :- U2(d, q);
      var s :- VerificationType(d, o.next);
      Ok(Decoded(SameLocals1StackItemExtended(o.value, s.value), s.next))
    else if 248 <= t <= 250 then
      var o :- U2(d, q);
      Ok(Decoded(Chop(o.value, 251 - t), o.next))
    else if t == 251 then
      var o :- U2(d, q);
      Ok(Decoded(SameExtended(o.value), o.next))
    else if 252 <= t <= 254 then
      var o :- U2(d, q);
      var locals :- Repeat(VerificationType, d, o.next, t - 251);
      Ok(Decoded(Append(o.value, locals.value), locals.next))
    else if t == 255 then
      var o :- U2(d, q);
      var locals :- Table(VerificationType, d, o.next);
      var stack :- Table(VerificationType, d, locals.next);
      Ok(Decoded(Full(o.value, locals.value, stack.value), stack.next))
    else
      Err(InvalidAttribute("StackMapTable"))
  }

  /** The StackMapTable body: a u2 count of frames. */
  function StackMapTableAt(d: seq<u8>, p: nat): (r: Result<Decoded<seq<StackMapFrame>>>)
    requires p <= |d|
    ensures Advances(r, d, p)
    ensures r.Ok? ==> p + 2 <= |d| && |r.value.value| == BigEndian16(d, p)
    ensures r.Ok? ==> forall f | f in r.value.value :: WellFormedFrame(f)
  {
    var n :- U2(d, p);
    FramesWellFormed(d, n.next, n.value, []);
    Repeat(Frame, d, n.next, n.value)
  }

  /** Every frame the table loop pushes is well formed. */
  lemma {:induction false} FramesWellFormed(d: seq<u8>, p: nat, n: nat, acc: seq<StackMapFrame>)
    requires p <= |d|
    requires forall f | f in acc :: WellFormedFrame(f)
    ensures RepeatFrom(Frame, d, p, n, acc).Ok? ==> forall f | f in RepeatFrom(Frame, d, p, n, acc).value.value :: WellFormedFrame(f)
    decreases n
  {
    if n > 0 && Frame(d, p).Ok? {
      FramesWellFormed(d, Frame(d, p).value.next, n - 1, acc + [Frame(d, p).value.value]);
    }
  }

  lemma FrameAdvancing()
    ensures Advancing(Frame)
  {
  }

  /**
   * parse_stack_map_table: the u2 frame count, then the loop that decodes one
   * frame per iteration and pushes it.
   */
  method ParseStackMapTable(r: Reader) returns (res: Result<seq<StackMapFrame>>)
    requires r.Valid()
    modifies r
    ensures r.Valid() && Follows(StackMapTableAt(r.data, old(r.pos)), res, r.pos)
  {
    FrameAdvancing();
    var n :- r.ReadU2();
    res := ReadList(r, Frame, n);
  }
}
