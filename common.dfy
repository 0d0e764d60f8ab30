// Definitions shared by every part of the ML middleware model: result codes,
// profiling configuration bits, build options, machine integers, and an
// abstract C heap that the runtime-object lifecycles allocate from.

module Common {

  /** The middleware result codes; the n of CY_RSLT_CREATE(ERROR, MIDDLEWARE_ML, n). */
  datatype Status =
    | Success
    | BadArg
    | AllocErr
    | BadModel
    | MismatchDataType
    | InputError
    | InferenceError
    | CommError
    | Timeout
    | NpuInitError
    | CycleCountError

  /** The error number carried in a result code; 0 is reserved for success. */
  function ErrorNumber(s: Status): (n: nat)
    ensures n == 0 <==> s == Success
    ensures n <= 10
  {
    match s
    case Success => 0
    case BadArg => 1
    case AllocErr => 2
    case BadModel => 3
    case MismatchDataType => 4
    case InputError => 5
    case InferenceError => 6
    case CommError => 7
    case Timeout => 8
    case NpuInitError => 9
    case CycleCountError => 10
  }

  /** Distinct result codes carry distinct error numbers. */
  lemma ErrorNumberInjective(s: Status, t: Status)
    ensures ErrorNumber(s) == ErrorNumber(t) ==> s == t
  {
  }

  // ---------------------------------------------------------------------
  // Profiling configuration (an int enum whose values are single bits).

  type ProfileConfig = bv32

  const ProfileDisable: ProfileConfig := 0
  const ProfileEnableModel: ProfileConfig := 1
  const ProfileEnableLayer: ProfileConfig := 2
  const ProfileEnableModelPerFrame: ProfileConfig := 4
  const ProfileEnableLayerPerFrame: ProfileConfig := 8
  const LogEnableModelLog: ProfileConfig := 16

  /** Run-level cycle accounting is on when the ENABLE_MODEL bit is set. */
  predicate ProfilesModel(config: ProfileConfig)
  {
    config & ProfileEnableModel != 0
  }

  /** Per-frame logging is on when the MODEL_LOG bit is set. */
  predicate LogsModel(config: ProfileConfig)
  {
    config & LogEnableModelLog != 0
  }

  // ---------------------------------------------------------------------
  // Build options.

  /** The data-type component a library is built with; it fixes MTB_ML_DATA_T. */
  datatype DataType = Int8x8 | Int16x16 | Int16x8 | Float32

  /** sizeof(MTB_ML_DATA_T) for each build. */
  function DataBytes(d: DataType): (n: nat)
    ensures d == Float32 <==> n == 4
    ensures n == 1 <==> d == Int8x8
  {
    match d
    case Int8x8 => 1
    case Int16x16 => 2
    case Int16x8 => 2
    case Float32 => 4
  }

  /** The inference engine a library is built for. */
  datatype Engine = Ifx | Tflm

  /** The compile-time configuration: engine, data type, and whether CMSIS-DSP is present. */
  datatype Build = Build(engine: Engine, data: DataType, cmsisDsp: bool)

  datatype Option<T> = None | Some(value: T)

  // ---------------------------------------------------------------------
  // Machine integers.

  const Two32: int := 0x1_0000_0000
  const Two64: int := 0x1_0000_0000_0000_0000

  type u8 = x: int | 0 <= x < 0x100
  type u32 = x: int | 0 <= x < 0x1_0000_0000
  type u64 = x: int | 0 <= x < 0x1_0000_0000_0000_0000

  /** Unsigned 32-bit wrap-around. */
  function Wrap32(x: int): (r: u32)
    ensures 0 <= x < Two32 ==> r == x
    ensures (x - r) % Two32 == 0
  {
    x % Two32
  }

  /** Unsigned 64-bit wrap-around. */
  function Wrap64(x: int): (r: u64)
    ensures 0 <= x < Two64 ==> r == x
    ensures (x - r) % Two64 == 0
  {
    x % Two64
  }

  /** 2 to the power k. */
  function Pow2(k: nat): (r: int)
    ensures r >= 1
  {
    if k == 0 then 1 else 2 * Pow2(k - 1)
  }

  // ---------------------------------------------------------------------
  // The C heap.

  /** A C pointer: null, a block handed out by the heap, or memory the heap does not own. */
  datatype Ptr = Null | HeapBlock(id: nat) | Static(addr: nat)

  /**
   * The allocator behind malloc/calloc/aligned_alloc/free and C++ new/delete.
   * `blocks` maps every live block to its size; `avail` is the memory left.
   * A request succeeds exactly when it fits in what is left.
   */
  class Heap {
    var blocks: map<nat, nat>
    var avail: nat
    var next: nat

    ghost predicate Valid()
      reads this
    {
      forall id :: id in blocks ==> id < next
    }

    /** Whether p is a block this heap handed out and has not taken back. */
    predicate Live(p: Ptr)
      reads this
    {
      p.HeapBlock? && p.id in blocks
    }

    constructor(capacity: nat)
      ensures Valid()
      ensures blocks == map[] && avail == capacity
    {
      blocks := map[];
      avail := capacity;
      next := 0;
    }

    /** malloc(size): a fresh block when the request fits, otherwise NULL and no change. */
    method Alloc(size: int) returns (p: Ptr)
      requires Valid()
      modifies this
      ensures Valid()
      ensures p.Null? || p.HeapBlock?
      ensures p.HeapBlock? <==> 0 <= size <= old(avail)
      ensures p.HeapBlock? ==>
        p.id !in old(blocks) && blocks == old(blocks)[p.id := size] && avail == old(avail) - size
      ensures p.Null? ==> blocks == old(blocks) && avail == old(avail)
    {
      if 0 <= size <= avail {
        p := HeapBlock(next);
        blocks := blocks[next := size];
        avail := avail - size;
        next := next + 1;
      } else {
        p := Null;
      }
    }

    /** C++ new of a wrapper object: it never yields NULL, and its size is not accounted. */
    method New() returns (p: Ptr)
      requires Valid()
      modifies this
      ensures Valid()
      ensures p.HeapBlock? && p.id !in old(blocks)
      ensures blocks == old(blocks)[p.id := 0] && avail == old(avail)
    {
      p := HeapBlock(next);
      blocks := blocks[next := 0];
      next := next + 1;
    }

    /** free(p) / delete p: NULL is ignored; anything else must be a live block. */
    method Free(p: Ptr)
      requires Valid()
      requires p.Null? || Live(p)
      modifies this
      ensures Valid()
      ensures p.Null? ==> blocks == old(blocks) && avail == old(avail)
      ensures p.HeapBlock? ==>
        blocks == old(blocks) - {p.id} && avail == old(avail) + old(blocks)[p.id]
    {
      if p.HeapBlock? {
        avail := avail + blocks[p.id];
        blocks := blocks - {p.id};
      }
    }
  }

  /** Whether successive allocation requests all succeed, each one reducing what is left. */
  predicate AllFit(reqs: seq<int>, avail: int)
    decreases |reqs|
  {
    |reqs| == 0 || (0 <= reqs[0] <= avail && AllFit(reqs[1..], avail - reqs[0]))
  }

  /** The memory successive requests take together. */
  function Total(reqs: seq<int>): int
    decreases |reqs|
  {
    if |reqs| == 0 then 0 else reqs[0] + Total(reqs[1..])
  }

  /** The target of a T** out-parameter, written only when an operation succeeds. */
  class Slot<T> {
    var value: T

    constructor(v: T)
      ensures value == v
    {
      value := v;
    }
  }
}
