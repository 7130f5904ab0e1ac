/**
 * The bounds-checked, big-endian byte cursor that every part of the class
 * file decoder reads through (src/classfile.rs, `Reader`).
 *
 * Each read is described twice: once as a pure grammar function of a buffer
 * and a position, returning the decoded value and the position after it, and
 * once as a method of the `Reader` class, which mutates the read position and
 * is proved to follow the grammar function.
 */
module Cursor {
  import opened Bytes
  import opened Results

  /** The number of unread bytes, saturating at zero like `usize::saturating_sub`. */
  function RemainingAt(d: seq<u8>, p: nat): (n: nat)
    ensures p <= |d| ==> p + n == |d|
    ensures p > |d| ==> n == 0
  {
    if p <= |d| then |d| - p else 0
  }

  /** `len` raw bytes, or UnexpectedEof when fewer remain. */
  function Take(d: seq<u8>, p: nat, len: nat): (r: Result<Decoded<seq<u8>>>)
    requires p <= |d|
    ensures Advances(r, d, p)
    ensures r.Ok? <==> p + len <= |d|
    ensures r.Ok? ==> r.value.next == p + len && |r.value.value| == len
    ensures r.Ok? ==> forall i | 0 <= i < len :: r.value.value[i] == d[p + i]
    ensures r.Err? ==> r.error == UnexpectedEof
  {
    if RemainingAt(d, p) < len then Err(UnexpectedEof) else Ok(Decoded(d[p..p + len], p + len))
  }

  /** When len bytes remain, Take yields exactly the slice of them. */
  lemma TakeSlice(d: seq<u8>, p: nat, len: nat)
    requires p + len <= |d|
    ensures Take(d, p, len) == Ok(Decoded(d[p..p + len], p + len))
  {
  }

  /** One unsigned byte (u1). */
  function U1(d: seq<u8>, p: nat): (r: Result<Decoded<u8>>)
    requires p <= |d|
    ensures Advances(r, d, p)
    ensures r.Ok? <==> p + 1 <= |d|
    ensures r.Ok? ==> r.value.next == p + 1 && r.value.value == d[p]
    ensures r.Err? ==> r.error == UnexpectedEof
  {
    if RemainingAt(d, p) < 1 then Err(UnexpectedEof)
    else Ok(Decoded(d[p], p + 1))
  }

  /** Two bytes, most significant first (u2). */
  function U2(d: seq<u8>, p: nat): (r: Result<Decoded<u16>>)
    requires p <= |d|
    ensures Advances(r, d, p)
    ensures r.Ok? <==> p + 2 <= |d|
    ensures r.Ok? ==> r.value.next == p + 2 && r.value.value == BigEndian16(d, p)
    ensures r.Err? ==> r.error == UnexpectedEof
  {
    if RemainingAt(d, p) < 2 then Err(UnexpectedEof)
    else Ok(Decoded(BigEndian16(d, p), p + 2))
  }

  /** Four bytes, most significant first (u4). */
  function U4(d: seq<u8>, p: nat): (r: Result<Decoded<u32>>)
    requires p <= |d|
    ensures Advances(r, d, p)
    ensures r.Ok? <==> p + 4 <= |d|
    ensures r.Ok? ==> r.value.next == p + 4 && r.value.value == BigEndian32(d, p)
    ensures r.Err? ==> r.error == UnexpectedEof
  {
    if RemainingAt(d, p) < 4 then Err(UnexpectedEof)
    else Ok(Decoded(BigEndian32(d, p), p + 4))
  }

  /** u2 reads its two bytes big-endian. */
  lemma U2IsBigEndian(d: seq<u8>, p: nat)
    requires p <= |d|
    ensures U2(d, p).Ok? ==> U2(d, p).value.value == BigEndian(d[p..p + 2])
  {
    if p + 2 <= |d| {
      BigEndian16Is(d, p);
    }
  }

  /** u4 reads its four bytes big-endian. */
  lemma U4IsBigEndian(d: seq<u8>, p: nat)
    requires p <= |d|
    ensures U4(d, p).Ok? ==> U4(d, p).value.value == BigEndian(d[p..p + 4])
  {
    if p + 4 <= |d| {
      BigEndian32Is(d, p);
    }
  }

  /** A grammar that, whenever it succeeds, ends inside the buffer and not before its start. */
  ghost predicate Advancing<T>(item: (seq<u8>, nat) --> Result<Decoded<T>>) {
    forall d: seq<u8>, p: nat | p <= |d| :: item.requires(d, p) && Advances(item(d, p), d, p)
  }

  /**
   * The items still to read after `acc` has been read: n more items of a
   * grammar, appended to acc one after another; the first failing item's
   * error aborts. This is the shape of the `for _ in 0..n { v.push(...) }`
   * loops of the decoder, with acc the vector built so far.
   */
  function RepeatFrom<T>(item: (seq<u8>, nat) --> Result<Decoded<T>>, d: seq<u8>, p: nat, n: nat, acc: seq<T>): (r: Result<Decoded<seq<T>>>)
    requires Advancing(item)
    requires p <= |d|
    ensures Advances(r, d, p)
    ensures r.Ok? ==> |r.value.value| == |acc| + n && r.value.value[..|acc|] == acc
    decreases n
  {
    if n == 0 then Ok(Decoded(acc, p))
    else
      var x :- item(d, p);
      RepeatFrom(item, d, x.next, n - 1, acc + [x.value])
  }

  /** n items of a grammar one after another. */
  function Repeat<T>(item: (seq<u8>, nat) --> Result<Decoded<T>>, d: seq<u8>, p: nat, n: nat): (r: Result<Decoded<seq<T>>>)
    requires Advancing(item)
    requires p <= |d|
    ensures Advances(r, d, p)
    ensures r.Ok? ==> |r.value.value| == n
  {
    RepeatFrom(item, d, p, n, [])
  }

  /** A u2 count followed by that many items of a grammar. */
  function Table<T>(item: (seq<u8>, nat) --> Result<Decoded<T>>, d: seq<u8>, p: nat): (r: Result<Decoded<seq<T>>>)
    requires Advancing(item)
    requires p <= |d|
    ensures Advances(r, d, p)
    ensures r.Ok? ==> p + 2 <= r.value.next && |r.value.value| == BigEndian16(d, p)
    ensures p + 2 > |d| ==> r == Err(UnexpectedEof)
  {
    var n :- U2(d, p);
    Repeat(item, d, n.next, n.value)
  }


  /**
   * A grammar for a record of w bytes: it succeeds exactly when w bytes
   * remain, ends w bytes later, and otherwise fails with UnexpectedEof.
   */
  ghost predicate FixedWidth<T>(item: (seq<u8>, nat) --> Result<Decoded<T>>, w: nat) {
    forall d: seq<u8>, p: nat | p <= |d| ::
      item.requires(d, p)
      && (item(d, p).Ok? <==> p + w <= |d|)
      && (item(d, p).Ok? ==> item(d, p).value.next == p + w)
      && (item(d, p).Err? ==> item(d, p).error == UnexpectedEof)
  }

  /**
   * n records of a fixed-width grammar lie back to back: the list decodes
   * exactly when w * n bytes remain, record i after acc is the one at
   * p + w * i, and a short buffer is UnexpectedEof.
   */
  lemma {:induction false} RepeatFixed<T>(item: (seq<u8>, nat) --> Result<Decoded<T>>, w: nat, d: seq<u8>, p: nat, n: nat, acc: seq<T>)
    requires Advancing(item) && FixedWidth(item, w) && p <= |d|
    ensures RepeatFrom(item, d, p, n, acc).Ok? <==> p + w * n <= |d|
    ensures RepeatFrom(item, d, p, n, acc).Ok? ==> RepeatFrom(item, d, p, n, acc).value.next == p + w * n
    ensures RepeatFrom(item, d, p, n, acc).Ok? ==>
              forall i | 0 <= i < n :: p + w * i + w <= |d| && RepeatFrom(item, d, p, n, acc).value.value[|acc| + i] == item(d, p + w * i).value.value
    ensures RepeatFrom(item, d, p, n, acc).Err? ==> RepeatFrom(item, d, p, n, acc).error == UnexpectedEof
    decreases n
  {
    if n > 0 {
      var x := item(d, p);
      assert w * n == w + w * (n - 1);
      if x.Ok? {
        var r := RepeatFrom(item, d, p, n, acc);
        RepeatFixed(item, w, d, p + w, n - 1, acc + [x.value.value]);
        if r.Ok? {
          forall i | 0 <= i < n
            ensures p + w * i + w <= |d| && r.value.value[|acc| + i] == item(d, p + w * i).value.value
          {
            if i > 0 {
              assert p + w * i == p + w + w * (i - 1);
            }
          }
        }
      }
    }
  }

  /** A u2 count of fixed-width records: record i is the one at p + 2 + w * i. */
  lemma TableFixed<T>(item: (seq<u8>, nat) --> Result<Decoded<T>>, w: nat, d: seq<u8>, p: nat)
    requires Advancing(item) && FixedWidth(item, w) && p <= |d|
    ensures Table(item, d, p).Ok? <==> p + 2 <= |d| && p + 2 + w * BigEndian16(d, p) <= |d|
    ensures Table(item, d, p).Ok? ==> Table(item, d, p).value.next == p + 2 + w * BigEndian16(d, p)
    ensures Table(item, d, p).Ok? ==>
              forall i | 0 <= i < BigEndian16(d, p) :: p + 2 + w * i + w <= |d| && Table(item, d, p).value.value[i] == item(d, p + 2 + w * i).value.value
    ensures Table(item, d, p).Err? ==> Table(item, d, p).error == UnexpectedEof
  {
    if p + 2 <= |d| {
      RepeatFixed(item, w, d, p + 2, BigEndian16(d, p), []);
    }
  }

  /**
   * The u2 values still to read after `acc`: n more. Every such list in a
   * class file is a list of constant pool indices.
   */
  function Indices(d: seq<u8>, p: nat, n: nat, acc: seq<u16>): (r: Result<Decoded<seq<u16>>>)
    requires p <= |d|
    ensures Advances(r, d, p)
    ensures r.Ok? <==> p + 2 * n <= |d|
    ensures r.Ok? ==> r.value.next == p + 2 * n && |r.value.value| == |acc| + n && r.value.value[..|acc|] == acc
    ensures r.Ok? ==> forall i | |acc| <= i < |acc| + n :: r.value.value[i] == BigEndian16(d, p + 2 * (i - |acc|))
    ensures r.Err? ==> r.error == UnexpectedEof
    decreases n
  {
    if n == 0 then Ok(Decoded(acc, p))
    else
      var i :- U2(d, p);
      Indices(d, i.next, n - 1, acc + [i.value])
  }

  /** A u2 count followed by that many u2 indices. */
  function IndexTable(d: seq<u8>, p: nat): (r: Result<Decoded<seq<u16>>>)
    requires p <= |d|
    ensures Advances(r, d, p)
    ensures r.Ok? <==> p + 2 <= |d| && p + 2 + 2 * BigEndian16(d, p) <= |d|
    ensures r.Ok? ==> r.value.next == p + 2 + 2 * BigEndian16(d, p) && |r.value.value| == BigEndian16(d, p)
    ensures r.Ok? ==> forall i | 0 <= i < BigEndian16(d, p) :: r.value.value[i] == BigEndian16(d, p + 2 + 2 * i)
    ensures r.Err? ==> r.error == UnexpectedEof
  {
    var n :- U2(d, p);
    Indices(d, n.next, n.value, [])
  }

  /** A byte cursor over a fixed buffer; `pos` is the next byte to read. */
  class Reader {
    const data: seq<u8>
    var pos: nat

    ghost predicate Valid()
      reads this
    {
      pos <= |data|
    }

    constructor (data: seq<u8>)
      ensures this.data == data && pos == 0 && Valid()
    {
      this.data := data;
      pos := 0;
    }

    function Remaining(): (n: nat)
      reads this
      ensures pos <= |data| ==> pos + n == |data|
    {
      RemainingAt(data, pos)
    }

    method ReadU1() returns (res: Result<u8>)
      requires Valid()
      modifies this
      ensures Valid() && Follows(U1(data, old(pos)), res, pos)
      ensures res.Err? ==> pos == old(pos)
    {
      if Remaining() < 1 {
        return Err(UnexpectedEof);
      }
      res := Ok(data[pos]);
      pos := pos + 1;
    }

    method ReadU2() returns (res: Result<u16>)
      requires Valid()
      modifies this
      ensures Valid() && Follows(U2(data, old(pos)), res, pos)
      ensures res.Ok? ==> res.value == (data[old(pos)] as int) * 0x100 + data[old(pos) + 1]
      ensures res.Err? ==> pos == old(pos)
    {
      if Remaining() < 2 {
        return Err(UnexpectedEof);
      }
      res := Ok((data[pos] as int) * 0x100 + data[pos + 1]);
      pos := pos + 2;
    }

    method ReadU4() returns (res: Result<u32>)
      requires Valid()
      modifies this
      ensures Valid() && Follows(U4(data, old(pos)), res, pos)
      ensures res.Ok? ==> res.value == (data[old(pos)] as int) * 0x100_0000 + (data[old(pos) + 1] as int) * 0x1_0000
                                       + (data[old(pos) + 2] as int) * 0x100 + data[old(pos) + 3]
      ensures res.Err? ==> pos == old(pos)
    {
      if Remaining() < 4 {
        return Err(UnexpectedEof);
      }
      res := Ok((data[pos] as int) * 0x100_0000 + (data[pos + 1] as int) * 0x1_0000 + (data[pos + 2] as int) * 0x100 + data[pos + 3]);
      pos := pos + 4;
    }

    method ReadBytes(len: nat) returns (res: Result<seq<u8>>)
      requires Valid()
      modifies this
      ensures Valid() && Follows(Take(data, old(pos), len), res, pos)
      ensures res.Err? ==> pos == old(pos)
    {
      if Remaining() < len {
        return Err(UnexpectedEof);
      }
      res := Ok(data[pos..pos + len]);
      pos := pos + len;
    }

    /**
     * Runs any advancing grammar (a struct literal of consecutive reads, a
     * stack map frame) at the current position, advancing past the item
     * only when it decodes.
     */
    method Read<T>(item: (seq<u8>, nat) --> Result<Decoded<T>>) returns (res: Result<T>)
      requires Valid() && Advancing(item)
      modifies this
      ensures Valid() && Follows(item(data, old(pos)), res, pos)
      ensures res.Err? ==> pos == old(pos)
    {
      var x := item(data, pos);
      if x.Err? {
        return Err(x.error);
      }
      pos := x.value.next;
      return Ok(x.value.value);
    }
  }

  /** The `for _ in 0..n { v.push(...) }` loop over a record grammar. */
  method ReadList<T>(r: Reader, item: (seq<u8>, nat) --> Result<Decoded<T>>, n: nat) returns (res: Result<seq<T>>)
    requires r.Valid() && Advancing(item)
    modifies r
    ensures r.Valid() && Follows(Repeat(item, r.data, old(r.pos), n), res, r.pos)
  {
    ghost var start := r.pos;
    var acc: seq<T> := [];
    var i := 0;
    while i < n
      invariant i <= n && r.Valid()
      invariant RepeatFrom(item, r.data, start, n, []) == RepeatFrom(item, r.data, r.pos, n - i, acc)
    {
      var x :- r.Read(item);
      acc := acc + [x];
      i := i + 1;
    }
    return Ok(acc);
  }

  /** A u2 count read through the cursor, then that many records. */
  method ReadTable<T>(r: Reader, item: (seq<u8>, nat) --> Result<Decoded<T>>) returns (res: Result<seq<T>>)
    requires r.Valid() && Advancing(item)
    modifies r
    ensures r.Valid() && Follows(Table(item, r.data, old(r.pos)), res, r.pos)
  {
    var n :- r.ReadU2();
    res := ReadList(r, item, n);
  }

  /** The `for _ in 0..n { v.push(r.read_u2()?) }` loop. */
  method ReadIndices(r: Reader, n: nat) returns (res: Result<seq<u16>>)
    requires r.Valid()
    modifies r
    ensures r.Valid() && Follows(Indices(r.data, old(r.pos), n, []), res, r.pos)
  {
    ghost var start := r.pos;
    var acc: seq<u16> := [];
    var i := 0;
    while i < n
      invariant i <= n && r.Valid()
      invariant Indices(r.data, start, n, []) == Indices(r.data, r.pos, n - i, acc)
    {
      var x :- r.ReadU2();
      acc := acc + [x];
      i := i + 1;
    }
    return Ok(acc);
  }

  /** A u2 count read through the cursor, then that many u2 indices. */
  method ReadIndexTable(r: Reader) returns (res: Result<seq<u16>>)
    requires r.Valid()
    modifies r
    ensures r.Valid() && Follows(IndexTable(r.data, old(r.pos)), res, r.pos)
  {
    var n :- r.ReadU2();
    res := ReadIndices(r, n);
  }
}
