/**
 * The decoder's closed error taxonomy, its Result type, and the shape of a
 * partial decode: a value together with the position just after it.
 */
module Results {
  import opened Bytes

  /** Every way a decode can fail; the first failure aborts the whole decode. */
  datatype ClassFileError =
    | UnexpectedEof
    | InvalidMagic(magic: u32)
    | InvalidConstantPoolIndex(index: u16)
    | InvalidConstantPoolTag(tag: u8)
    | InvalidUtf8
    | InvalidAttribute(name: string)

  datatype Result<+T> = Ok(value: T) | Err(error: ClassFileError) {
    predicate IsFailure() {
      Err?
    }

    function PropagateFailure<U>(): Result<U>
      requires Err?
    {
      Err(error)
    }

    function Extract(): T
      requires Ok?
    {
      value
    }
  }

  /** A value decoded from a byte buffer and the read position that follows it. */
  datatype Decoded<+T> = Decoded(value: T, next: nat)

  /** A successful decode starting at p ends at a position between p and the end of d. */
  ghost predicate Advances<T>(r: Result<Decoded<T>>, d: seq<u8>, p: nat) {
    r.Ok? ==> p <= r.value.next <= |d|
  }

  /**
   * What an imperative decoding step did, stated against its specification
   * `spec`: on success it returned the specified value and left the read
   * position where the specification says; on failure it returned the
   * specified error.
   */
  ghost predicate Follows<T>(spec: Result<Decoded<T>>, res: Result<T>, pos: nat) {
    match spec
    case Ok(x) => res == Ok(x.value) && pos == x.next
    case Err(e) => res == Err(e)
  }
}
