/**
 * What the attribute decoder promises (section 4.7 of the Java Virtual
 * Machine Specification; src/classfile.rs, `parse_attributes`): the name
 * dispatch, the order of the checks, the exact extent of an attribute, the
 * rejection of trailing body bytes, and unknown attributes kept intact.
 */
module AttributeProperties {
  import opened Bytes
  import opened Results
  import opened Cursor
  import opened AttributeTypes
  import Pool
  import opened Attributes

  /** Every entry of the name table selects a decoder. */
  lemma TableKindsKnown()
    ensures forall j | 0 <= j < |KnownAttributes| :: KnownAttributes[j].1 != OtherKind
  {
  }

  /**
   * The lookup from `i` on finds a decoder exactly when some entry at or
   * after `i` carries the name, and the kind it returns is that entry's.
   */
  lemma {:induction false} KindFromFinds(name: string, i: nat)
    ensures KindFrom(name, i) != OtherKind <==> exists j | i <= j < |KnownAttributes| :: KnownAttributes[j].0 == name
    ensures KindFrom(name, i) != OtherKind ==> exists j | i <= j < |KnownAttributes| :: KnownAttributes[j] == (name, KindFrom(name, i))
    decreases |KnownAttributes| - i
  {
    TableKindsKnown();
    if i < |KnownAttributes| && KnownAttributes[i].0 != name {
      KindFromFinds(name, i + 1);
      assert forall j | i <= j < |KnownAttributes| :: KnownAttributes[j].0 == name ==> i + 1 <= j;
    }
  }

  /** A name selects a decoder of its own exactly when it is a known attribute name, and then the table pairs it with that decoder. */
  lemma KindOfKnown(name: string)
    ensures KindOf(name) != OtherKind <==> KnownAttributeName(name)
    ensures KindOf(name) != OtherKind ==> exists j | 0 <= j < |KnownAttributes| :: KnownAttributes[j] == (name, KindOf(name))
  {
    KindFromFinds(name, 0);
  }

  /** Only the Unknown attribute is of OtherKind. */
  lemma KindOtherIsUnknown(a: AttributeInfo)
    ensures Kind(a) == OtherKind <==> a.Unknown?
  {
  }

  /** The lookup from `i` returns the kind of the first entry at or after `i` that carries the name. */
  lemma {:induction false} KindFromFirstMatch(name: string, i: nat, j: nat)
    requires i <= j < |KnownAttributes| && KnownAttributes[j].0 == name
    requires forall k | i <= k < j :: KnownAttributes[k].0 != name
    ensures KindFrom(name, i) == KnownAttributes[j].1
    decreases j - i
  {
    if i < j {
      KindFromFirstMatch(name, i + 1, j);
    }
  }

  /** The table lookup on the names this module states facts about. */
  lemma KindsOfNamedAttributes()
    ensures KindOf("ConstantValue") == ConstantValueKind
    ensures KindOf("Synthetic") == SyntheticKind
    ensures KindOf("Deprecated") == DeprecatedKind
  {
    KindFromFirstMatch("ConstantValue", 0, 0);
    assert forall k | 0 <= k < 6 :: |KnownAttributes[k].0| != |"Synthetic"|;
    KindFromFirstMatch("Synthetic", 0, 6);
    assert forall k | 0 <= k < 13 :: KnownAttributes[k].0 != "Deprecated" by {
      forall k | 0 <= k < 13 ensures KnownAttributes[k].0 != "Deprecated" {
        assert |KnownAttributes[k].0| != |"Deprecated"| || KnownAttributes[k].0[0] != 'D';
      }
    }
    KindFromFirstMatch("Deprecated", 0, 13);
  }

  /** A header that fails is the attribute's failure: the body is never decoded. */
  lemma HeaderErrorPropagates(d: seq<u8>, p: nat, cp: Pool.ConstantPool)
    requires p <= |d| && HeaderAt(d, p, cp).Err?
    ensures AttributeAt(d, p, cp) == Err(HeaderAt(d, p, cp).error)
  {
  }

  /** An attribute header cut short is an early end of input. */
  lemma HeaderShort(d: seq<u8>, p: nat, cp: Pool.ConstantPool)
    requires p <= |d| && |d| < p + 6
    ensures AttributeAt(d, p, cp) == Err(UnexpectedEof)
  {
  }

  /**
   * The name is resolved before the body is read: a name index that is not a
   * Utf8 constant fails the attribute with the lookup's error, whatever the
   * length field says.
   */
  lemma NameResolvedFirst(d: seq<u8>, p: nat, cp: Pool.ConstantPool)
    requires p + 6 <= |d| && Pool.GetUtf8(cp, BigEndian16(d, p)).Err?
    ensures AttributeAt(d, p, cp) == Err(Pool.GetUtf8(cp, BigEndian16(d, p)).error)
  {
  }

  /** With the name resolved, fewer than `length` remaining bytes are an early end of input. */
  lemma BodyShort(d: seq<u8>, p: nat, cp: Pool.ConstantPool)
    requires p + 6 <= |d| && Pool.GetUtf8(cp, BigEndian16(d, p)).Ok?
    requires |d| < p + 6 + BigEndian32(d, p + 2)
    ensures AttributeAt(d, p, cp) == Err(UnexpectedEof)
  {
  }

  /** Once the header is read, the attribute is its body bytes decoded whole. */
  lemma HeaderThenBody(d: seq<u8>, p: nat, cp: Pool.ConstantPool, name: string, info: seq<u8>, end: nat)
    requires p <= |d| && HeaderAt(d, p, cp) == Ok(Decoded((name, info), end))
    ensures AttributeAt(d, p, cp) == WholeBody(info, name, cp, end)
  {
  }

  /** With the name and the body bytes read, the body decoder's error is the attribute's error. */
  lemma BodyErrorPropagates(d: seq<u8>, p: nat, cp: Pool.ConstantPool, name: string, info: seq<u8>, end: nat)
    requires p <= |d| && HeaderAt(d, p, cp) == Ok(Decoded((name, info), end))
    requires AttributeBody(info, KindOf(name), name, cp).Err?
    ensures AttributeAt(d, p, cp) == Err(AttributeBody(info, KindOf(name), name, cp).error)
  {
    HeaderThenBody(d, p, cp, name, info, end);
  }

  /** A body decode that stops short of the last body byte fails the attribute with InvalidAttribute(name). */
  lemma TrailingBytesRejected(d: seq<u8>, p: nat, cp: Pool.ConstantPool, name: string, info: seq<u8>, end: nat)
    requires p <= |d| && HeaderAt(d, p, cp) == Ok(Decoded((name, info), end))
    requires AttributeBody(info, KindOf(name), name, cp).Ok?
    requires AttributeBody(info, KindOf(name), name, cp).value.next < |info|
    ensures AttributeAt(d, p, cp) == Err(InvalidAttribute(name))
  {
    HeaderThenBody(d, p, cp, name, info, end);
  }

  /** A body decode that uses every body byte is the attribute, which ends right after those bytes. */
  lemma WholeBodyAccepted(d: seq<u8>, p: nat, cp: Pool.ConstantPool, name: string, info: seq<u8>, end: nat)
    requires p <= |d| && HeaderAt(d, p, cp) == Ok(Decoded((name, info), end))
    requires AttributeBody(info, KindOf(name), name, cp).Ok?
    requires AttributeBody(info, KindOf(name), name, cp).value.next == |info|
    ensures AttributeAt(d, p, cp) == Ok(Decoded(AttributeBody(info, KindOf(name), name, cp).value.value, end))
  {
    HeaderThenBody(d, p, cp, name, info, end);
  }

  /** A Synthetic or Deprecated attribute with a non-empty body is rejected. */
  lemma NonEmptyMarkerRejected(d: seq<u8>, p: nat, cp: Pool.ConstantPool, name: string, info: seq<u8>, end: nat)
    requires p <= |d| && HeaderAt(d, p, cp) == Ok(Decoded((name, info), end))
    requires name in {"Synthetic", "Deprecated"} && 0 < |info|
    ensures AttributeAt(d, p, cp) == Err(InvalidAttribute(name))
  {
    HeaderThenBody(d, p, cp, name, info, end);
    KindsOfNamedAttributes();
  }

  /** An empty Synthetic or Deprecated attribute is accepted, six bytes long. */
  lemma EmptyMarkerAccepted(d: seq<u8>, p: nat, cp: Pool.ConstantPool, name: string, end: nat)
    requires p <= |d| && HeaderAt(d, p, cp) == Ok(Decoded((name, []), end))
    ensures end == p + 6
    ensures name == "Synthetic" ==> AttributeAt(d, p, cp) == Ok(Decoded(Synthetic, end))
    ensures name == "Deprecated" ==> AttributeAt(d, p, cp) == Ok(Decoded(Deprecated, end))
  {
    HeaderThenBody(d, p, cp, name, [], end);
    KindsOfNamedAttributes();
  }

  /** The decoder for names without one of their own keeps every body byte. */
  lemma OtherBodyKept(info: seq<u8>, name: string, cp: Pool.ConstantPool)
    ensures AttributeBody(info, OtherKind, name, cp) == Ok(Decoded(Unknown(name, info), |info|))
  {
    assert AttributeBody(info, OtherKind, name, cp) == TableBody(info, OtherKind, name, cp);
    assert TableBody(info, OtherKind, name, cp) == NestedBody(info, OtherKind, name, cp);
  }

  /** The body of an attribute whose name selects no decoder is kept whole. */
  lemma UnknownBodyKept(info: seq<u8>, name: string, cp: Pool.ConstantPool, end: nat)
    requires KindOf(name) == OtherKind
    ensures WholeBody(info, name, cp, end) == Ok(Decoded(Unknown(name, info), end))
  {
    OtherBodyKept(info, name, cp);
  }

  /**
   * A name without a decoder of its own is never rejected: the attribute is
   * Unknown, carrying the name and every byte of its body.
   */
  lemma UnknownKept(d: seq<u8>, p: nat, cp: Pool.ConstantPool, name: string, info: seq<u8>, end: nat)
    requires p <= |d| && HeaderAt(d, p, cp) == Ok(Decoded((name, info), end))
    requires !KnownAttributeName(name)
    ensures AttributeAt(d, p, cp) == Ok(Decoded(Unknown(name, info), end))
  {
    HeaderThenBody(d, p, cp, name, info, end);
    KindOfKnown(name);
    UnknownBodyKept(info, name, cp, end);
  }

  /**
   * A ConstantValue attribute shorter than two bytes fails as the body
   * reader runs out of bytes, so with UnexpectedEof rather than
   * InvalidAttribute.
   */
  lemma ShortConstantValue(d: seq<u8>, p: nat, cp: Pool.ConstantPool, info: seq<u8>, end: nat)
    requires p <= |d| && HeaderAt(d, p, cp) == Ok(Decoded(("ConstantValue", info), end))
    requires |info| < 2
    ensures AttributeAt(d, p, cp) == Err(UnexpectedEof)
  {
    HeaderThenBody(d, p, cp, "ConstantValue", info, end);
    KindsOfNamedAttributes();
  }
}
