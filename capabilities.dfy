/**
 * The jvmtiCapabilities bitset (src/sys/jvmti.rs): four 32-bit words whose
 * bits are the JVM TI capability flags. Bit k lives in word k / 32 at
 * position k % 32; each named capability owns one fixed bit. Setting a
 * flag changes that one bit and nothing else.
 *
 * Bit offsets are 32-bit words here (the source's `usize`); every offset
 * in use is below 45, far inside either width.
 */

/** One 32-bit word: reading, setting and clearing a single bit. */
module BitWords {
  /** Bit i of a word. */
  function BitOf(w: bv32, i: bv32): bool
    requires i < 32
  {
    w & (1 << i) != 0
  }

  /** The word with bit i set (`|=`) or cleared (`&= !`). */
  function WithBit(w: bv32, i: bv32, v: bool): (r: bv32)
    requires i < 32
    ensures BitOf(r, i) == v
  {
    if v then w | (1 << i) else w & !(1 << i)
  }

  /** Writing bit i leaves every other bit of the word as it was. */
  lemma WithBitOther(w: bv32, i: bv32, j: bv32, v: bool)
    requires i < 32 && j < 32 && i != j
    ensures BitOf(WithBit(w, i, v), j) == BitOf(w, j)
  {
    if v {
      assert (w | (1 << i)) & (1 << j) == w & (1 << j);
    } else {
      assert (w & !(1 << i)) & (1 << j) == w & (1 << j);
    }
  }
}

/** The four-word bitset as a value, and set_bit/get_bit on it. */
module CapabilityBits {
  import opened BitWords

  /** A four-word bitset. */
  type Words = w: seq<bv32> | |w| == 4 witness [0, 0, 0, 0]

  /** Bit k of the bitset: word k / 32, position k % 32. */
  function Bit(words: Words, k: bv32): bool
    requires k < 128
  {
    BitOf(words[k / 32], k % 32)
  }

  /** The bitset after set_bit(k, v): only word k / 32 changes. */
  function SetBitIn(words: Words, k: bv32, v: bool): (r: Words)
    requires k < 128
    ensures r[k / 32] == WithBit(words[k / 32], k % 32, v)
    ensures forall j: bv32 | j < 4 && j != k / 32 :: r[j] == words[j]
  {
    words[k / 32 := WithBit(words[k / 32], k % 32, v)]
  }

  /** After set_bit(k, v), get_bit(k) is v. */
  lemma GetAfterSet(words: Words, k: bv32, v: bool)
    requires k < 128
    ensures Bit(SetBitIn(words, k, v), k) == v
  {
  }

  /** set_bit(k, v) leaves every other bit of all four words unchanged. */
  lemma SetKeepsOthers(words: Words, k: bv32, j: bv32, v: bool)
    requires k < 128 && j < 128 && j != k
    ensures Bit(SetBitIn(words, k, v), j) == Bit(words, j)
  {
    if j / 32 == k / 32 {
      WithBitOther(words[k / 32], k % 32, j % 32, v);
    }
  }

  /** Default: all four words zero. */
  const NoCapabilities: Words := [0, 0, 0, 0]

  /** In the default bitset no bit is set. */
  lemma DefaultHasNoBits(k: bv32)
    requires k < 128
    ensures !Bit(NoCapabilities, k)
  {
  }
}

/** The named capabilities, their bit offsets, and the jvmtiCapabilities struct. */
module Capabilities {
  import opened BitWords
  import opened CapabilityBits

  /** The 45 capabilities that have a named setter and getter. */
  datatype Capability =
    | TagObjects
    | GenerateFieldModificationEvents
    | GenerateFieldAccessEvents
    | GetBytecodes
    | GetSyntheticAttribute
    | GetOwnedMonitorInfo
    | GetCurrentContendedMonitor
    | GetMonitorInfo
    | PopFrame
    | RedefineClasses
    | SignalThread
    | GetSourceFileName
    | GetLineNumbers
    | GetSourceDebugExtension
    | AccessLocalVariables
    | MaintainOriginalMethodOrder
    | GenerateSingleStepEvents
    | GenerateExceptionEvents
    | GenerateFramePopEvents
    | GenerateBreakpointEvents
    | Suspend
    | RedefineAnyClass
    | GetCurrentThreadCpuTime
    | GetThreadCpuTime
    | GenerateMethodEntryEvents
    | GenerateMethodExitEvents
    | GenerateAllClassHookEvents
    | GenerateCompiledMethodLoadEvents
    | GenerateMonitorEvents
    | GenerateVmObjectAllocEvents
    | GenerateNativeMethodBindEvents
    | GenerateGarbageCollectionEvents
    | GenerateObjectFreeEvents
    | ForceEarlyReturn
    | GetOwnedMonitorStackDepthInfo
    | GetConstantPool
    | SetNativeMethodPrefix
    | RetransformClasses
    | RetransformAnyClass
    | GenerateResourceExhaustionHeapEvents
    | GenerateResourceExhaustionThreadsEvents
    | GenerateEarlyVmstart
    | GenerateEarlyClassHookEvents
    | GenerateSampledObjectAllocEvents
    | SupportVirtualThreads

  /** The bit each named accessor pair passes to set_bit and get_bit. */
  function Offset(c: Capability): (k: bv32)
    ensures k < 45
  {
    match c
    case TagObjects => 0
    case GenerateFieldModificationEvents => 1
    case GenerateFieldAccessEvents => 2
    case GetBytecodes => 3
    case GetSyntheticAttribute => 4
    case GetOwnedMonitorInfo => 5
    case GetCurrentContendedMonitor => 6
    case GetMonitorInfo => 7
    case PopFrame => 8
    case RedefineClasses => 9
    case SignalThread => 10
    case GetSourceFileName => 11
    case GetLineNumbers => 12
    case GetSourceDebugExtension => 13
    case AccessLocalVariables => 14
    case MaintainOriginalMethodOrder => 15
    case GenerateSingleStepEvents => 16
    case GenerateExceptionEvents => 17
    case GenerateFramePopEvents => 18
    case GenerateBreakpointEvents => 19
    case Suspend => 20
    case RedefineAnyClass => 21
    case GetCurrentThreadCpuTime => 22
    case GetThreadCpuTime => 23
    case GenerateMethodEntryEvents => 24
    case GenerateMethodExitEvents => 25
    case GenerateAllClassHookEvents => 26
    case GenerateCompiledMethodLoadEvents => 27
    case GenerateMonitorEvents => 28
    case GenerateVmObjectAllocEvents => 29
    case GenerateNativeMethodBindEvents => 30
    case GenerateGarbageCollectionEvents => 31
    case GenerateObjectFreeEvents => 32
    case ForceEarlyReturn => 33
    case GetOwnedMonitorStackDepthInfo => 34
    case GetConstantPool => 35
    case SetNativeMethodPrefix => 36
    case RetransformClasses => 37
    case RetransformAnyClass => 38
    case GenerateResourceExhaustionHeapEvents => 39
    case GenerateResourceExhaustionThreadsEvents => 40
    case GenerateEarlyVmstart => 41
    case GenerateEarlyClassHookEvents => 42
    case GenerateSampledObjectAllocEvents => 43
    case SupportVirtualThreads => 44
  }

  /** The capability whose accessors use bit k. */
  function CapabilityAt(k: bv32): Capability
    requires k < 45
  {
    if k < 22 then
      if k < 11 then
        if k < 5 then
          if k < 2 then
            if k < 1 then
              TagObjects
            else
              GenerateFieldModificationEvents
          else
            if k < 3 then
              GenerateFieldAccessEvents
            else
              if k < 4 then
                GetBytecodes
              else
                GetSyntheticAttribute
        else
          if k < 8 then
            if k < 6 then
              GetOwnedMonitorInfo
            else
              if k < 7 then
                GetCurrentContendedMonitor
              else
                GetMonitorInfo
          else
            if k < 9 then
              PopFrame
            else
              if k < 10 then
                RedefineClasses
              else
                SignalThread
      else
        if k < 16 then
          if k < 13 then
            if k < 12 then
              GetSourceFileName
            else
              GetLineNumbers
          else
            if k < 14 then
              GetSourceDebugExtension
            else
              if k < 15 then
                AccessLocalVariables
              else
                MaintainOriginalMethodOrder
        else
          if k < 19 then
            if k < 17 then
              GenerateSingleStepEvents
            else
              if k < 18 then
                GenerateExceptionEvents
              else
                GenerateFramePopEvents
          else
            if k < 20 then
              GenerateBreakpointEvents
            else
              if k < 21 then
                Suspend
              else
                RedefineAnyClass
    else
      if k < 33 then
        if k < 27 then
          if k < 24 then
            if k < 23 then
              GetCurrentThreadCpuTime
            else
              GetThreadCpuTime
          else
            if k < 25 then
              GenerateMethodEntryEvents
            else
              if k < 26 then
                GenerateMethodExitEvents
              else
                GenerateAllClassHookEvents
        else
          if k < 30 then
            if k < 28 then
              GenerateCompiledMethodLoadEvents
            else
              if k < 29 then
                GenerateMonitorEvents
              else
                GenerateVmObjectAllocEvents
          else
            if k < 31 then
              GenerateNativeMethodBindEvents
            else
              if k < 32 then
                GenerateGarbageCollectionEvents
              else
                GenerateObjectFreeEvents
      else
        if k < 39 then
          if k < 36 then
            if k < 34 then
              ForceEarlyReturn
            else
              if k < 35 then
                GetOwnedMonitorStackDepthInfo
              else
                GetConstantPool
          else
            if k < 37 then
              SetNativeMethodPrefix
            else
              if k < 38 then
                RetransformClasses
              else
                RetransformAnyClass
        else
          if k < 42 then
            if k < 40 then
              GenerateResourceExhaustionHeapEvents
            else
              if k < 41 then
                GenerateResourceExhaustionThreadsEvents
              else
                GenerateEarlyVmstart
          else
            if k < 43 then
              GenerateEarlyClassHookEvents
            else
              if k < 44 then
                GenerateSampledObjectAllocEvents
              else
                SupportVirtualThreads
  }

  /** CapabilityAt undoes Offset, so no two named capabilities share a bit. */
  lemma CapabilityAtOffset(c: Capability)
    ensures CapabilityAt(Offset(c)) == c
  {
  }

  /** Offset undoes CapabilityAt: the named accessors use every bit from 0 to 44. */
  lemma OffsetOfCapabilityAt(k: bv32)
    requires k < 45
    ensures Offset(CapabilityAt(k)) == k
  {
  }

  /** Distinct capabilities have distinct bits. */
  lemma OffsetInjective(c: Capability, e: Capability)
    requires c != e
    ensures Offset(c) != Offset(e)
  {
    CapabilityAtOffset(c);
    CapabilityAtOffset(e);
  }

  /** set_can_X(v) leaves can_Y() as it was for every other capability Y. */
  lemma OtherCapabilityKept(words: Words, c: Capability, e: Capability, v: bool)
    requires c != e
    ensures Bit(SetBitIn(words, Offset(c), v), Offset(e)) == Bit(words, Offset(e))
  {
    OffsetInjective(c, e);
    SetKeepsOthers(words, Offset(c), Offset(e), v);
  }

  /** The jvmtiCapabilities struct: `bits: [u32; 4]`, changed in place by set_bit. */
  class JvmtiCapabilities {
    const bits: array<bv32>

    ghost predicate Valid()
      reads this
    {
      bits.Length == 4
    }

    /** The four words as a value. */
    function Contents(): Words
      requires Valid()
      reads this, bits
    {
      bits[..]
    }

    /** Default: every word zero. */
    constructor ()
      ensures Valid() && fresh(bits)
      ensures Contents() == NoCapabilities
    {
      bits := new bv32[4](_ => 0);
      new;
      assert bits[..] == [0, 0, 0, 0];
    }

    /** get_bit. */
    function GetBit(k: bv32): (b: bool)
      requires Valid() && k < 128
      reads this, bits
      ensures b <==> bits[k / 32] & (1 << (k % 32)) != 0
    {
      Bit(Contents(), k)
    }

    /** set_bit: bit k of word k / 32 is set or cleared in place. */
    method SetBit(k: bv32, v: bool)
      requires Valid() && k < 128
      modifies bits
      ensures Valid() && Contents() == SetBitIn(old(Contents()), k, v)
    {
      var word := k / 32;
      var bit := k % 32;
      bits[word] := WithBit(bits[word], bit, v);
    }

    /** can_X: the getter of a named capability reads that capability's bit. */
    function Can(c: Capability): (b: bool)
      requires Valid()
      reads this, bits
      ensures b <==> bits[Offset(c) / 32] & (1 << (Offset(c) % 32)) != 0
    {
      GetBit(Offset(c))
    }

    /**
     * set_can_X(v): the setter writes exactly the bit its getter reads, so
     * afterwards can_X() is v and every other capability is as before.
     */
    method SetCapability(c: Capability, v: bool)
      requires Valid()
      modifies bits
      ensures Valid() && Contents() == SetBitIn(old(Contents()), Offset(c), v)
      ensures Can(c) == v
      ensures forall e | e != c :: Can(e) == old(Can(e))
    {
      ghost var before := Contents();
      SetBit(Offset(c), v);
      GetAfterSet(before, Offset(c), v);
      forall e | e != c
        ensures Can(e) == old(Can(e))
      {
        OtherCapabilityKept(before, c, e, v);
      }
    }
  }
}
