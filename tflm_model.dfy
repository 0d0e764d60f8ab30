// The runtime object of the TensorFlow Lite Micro back end with an
// interpreter: how init picks the tensor arena (caller memory, or an
// aligned heap block recorded in `arenaBuffer`), how deinit gives back the
// interpreter, the arena and the object, and how each run copies the input
// into the interpreter's input tensor and updates the profiling counters,
// with the optional NPU cycle domain. The interpreter is an oracle.

module TflmModel {
  import opened Common
  import opened Profiling

  // ---------------------------------------------------------------------
  // Inputs, oracles and build options.

  /** mtb_ml_model_bin_t for TFLM: name, flatbuffer, its size and the arena size it needs. */
  datatype ModelBin = ModelBin(name: seq<char>, modelBin: Ptr, modelSize: int, arenaSize: int)

  /** mtb_ml_model_buffer_t for TFLM: a caller arena (may be NULL) and its size (0 means unspecified). */
  datatype ModelBuffer = ModelBuffer(tensorArena: Ptr, tensorArenaSize: u32)

  /**
   * What the interpreter reports once constructed: whether tensor allocation
   * succeeded and the input/output tensor parameters init copies out.
   */
  datatype Interpreter = Interpreter(
    allocationOk: bool,
    inputPtr: Ptr, inputElements: int, inputZeroPoint: int, inputScale: real, timeSteps: int,
    outputPtr: Ptr, outputElements: int, outputZeroPoint: int, outputScale: real,
    usedArena: int)

  /** Runs account NPU cycles separately (bare-metal builds with an NPU). */
  predicate CountsNpu(p: Platform)
  {
    !p.rtos && HasNpu(p)
  }

  // ---------------------------------------------------------------------
  // Arena selection.

  /** A size_t converted to int on a 32-bit target. */
  function SizeToInt(n: u32): (r: int)
    ensures n < Two32 / 2 ==> r == n
    ensures (r - n) % Two32 == 0 && -Two32 / 2 <= r < Two32 / 2
  {
    if n < Two32 / 2 then n else n - Two32
  }

  /** C's `%`, which truncates toward zero. */
  function CRem(a: int, b: int): (r: int)
    requires b > 0
    ensures a >= 0 ==> r == a % b
    ensures -b < r < b
  {
    if a >= 0 then a % b else -((-a) % b)
  }

  /** The size passed to aligned_alloc: `arena_size + (16 - arena_size % 16)`, as a size_t. */
  function ArenaRequest(arenaSize: int): u32
  {
    Wrap32(arenaSize + (16 - CRem(arenaSize, 16)))
  }

  /**
   * For a size that leaves room below 2^32, the request is a multiple of the
   * 16-byte alignment, larger than the arena and by at most 16 bytes.
   */
  lemma ArenaRequestAligned(n: int)
    requires 0 <= n < Two32 - 16
    ensures ArenaRequest(n) % 16 == 0
    ensures n < ArenaRequest(n) <= n + 16
  {
  }

  /** An arena size that is already a multiple of 16 still gets 16 bytes more. */
  lemma ArenaRequestExample()
    ensures ArenaRequest(4096) == 4112 && ArenaRequest(100) == 112
  {
  }

  /** The arena size init uses: the caller's non-zero size, else the model's. */
  function ArenaSize(bin: ModelBin, buffer: Option<ModelBuffer>): int
  {
    if buffer.Some? && buffer.value.tensorArenaSize != 0 then SizeToInt(buffer.value.tensorArenaSize)
    else bin.arenaSize
  }

  /** The arena init uses before allocating: the caller's pointer, NULL when there is none. */
  function CallerArena(buffer: Option<ModelBuffer>): Ptr
  {
    if buffer.Some? then buffer.value.tensorArena else Null
  }

  /** The argument check init performs before touching the heap. */
  predicate ArgsOk(bin: Option<ModelBin>, hasObject: bool)
  {
    bin.Some? && !bin.value.modelBin.Null? && hasObject
  }

  /**
   * The result init arrives at: the argument check, the object allocation,
   * the arena allocation when the caller gives no arena, and the
   * interpreter's tensor allocation.
   */
  function InitOutcome(bin: Option<ModelBin>, hasObject: bool, buffer: Option<ModelBuffer>,
                       interp: Interpreter, objBytes: nat, avail: int): (status: Status)
    ensures status in {Success, BadArg, AllocErr}
  {
    if !ArgsOk(bin, hasObject) then BadArg
    else if objBytes > avail then AllocErr
    else if CallerArena(buffer).Null? && ArenaRequest(ArenaSize(bin.value, buffer)) > avail - objBytes then AllocErr
    else if !interp.allocationOk then AllocErr
    else Success
  }

  // ---------------------------------------------------------------------
  // The runtime object.

  /** mtb_ml_model_t in a TFLM build. `self` is the heap block holding the object. */
  class Runtime {
    const self: nat
    var name: seq<char>
    var modelSize: int
    var bufferSize: int
    var inputSize: int
    var outputSize: int
    var libError: int
    var input: Ptr
    var output: Ptr
    var tflmObj: Ptr
    var inputZeroPoint: int
    var inputScale: real
    var outputZeroPoint: int
    var outputScale: real
    var modelTimeSteps: int
    var profiling: ProfileConfig
    var mCpuCycles: u64
    var mSumFrames: u32
    var mNpuCycles: u64
    /** m_cpu_sum_cycles, m_cpu_peak_cycles and m_cpu_peak_frame. */
    var cpu: Tally
    /** m_npu_sum_cycles, m_npu_peak_cycles and m_npu_peak_frame. */
    var npu: Tally
    var arenaBuffer: Ptr

    /** The object as calloc leaves it: every field zero or NULL. */
    constructor(id: nat)
      ensures self == id
      ensures name == [] && modelSize == 0 && bufferSize == 0 && inputSize == 0 && outputSize == 0
      ensures libError == 0 && input == Null && output == Null && tflmObj == Null && arenaBuffer == Null
      ensures profiling == ProfileDisable && mCpuCycles == 0 && mSumFrames == 0 && mNpuCycles == 0
      ensures cpu == Cleared && npu == Cleared
    {
      self := id;
      name := [];
      modelSize := 0;
      bufferSize := 0;
      inputSize := 0;
      outputSize := 0;
      libError := 0;
      input := Null;
      output := Null;
      tflmObj := Null;
      inputZeroPoint := 0;
      inputScale := 0.0;
      outputZeroPoint := 0;
      outputScale := 0.0;
      modelTimeSteps := 0;
      profiling := ProfileDisable;
      mCpuCycles := 0;
      mSumFrames := 0;
      mNpuCycles := 0;
      cpu := Cleared;
      npu := Cleared;
      arenaBuffer := Null;
    }

    /** The heap blocks deinit gives back: the object, the interpreter and an allocated arena. */
    function Owned(): set<nat>
      reads this
    {
      {self}
      + (if tflmObj.HeapBlock? then {tflmObj.id} else {})
      + (if arenaBuffer.HeapBlock? then {arenaBuffer.id} else {})
    }

    /** The owned blocks are live and distinct. */
    ghost predicate Consistent(heap: Heap)
      reads this, heap
    {
      heap.Valid() && self in heap.blocks
      && (arenaBuffer.Null? || arenaBuffer.HeapBlock?)
      && (tflmObj.Null? || tflmObj.HeapBlock?)
      && (arenaBuffer.HeapBlock? ==> arenaBuffer.id in heap.blocks && arenaBuffer.id != self)
      && (tflmObj.HeapBlock? ==>
            tflmObj.id in heap.blocks && tflmObj.id != self
            && (arenaBuffer.HeapBlock? ==> tflmObj.id != arenaBuffer.id))
    }

    /** A fully initialised object: consistent, with its interpreter in place. */
    ghost predicate Valid(heap: Heap)
      reads this, heap
    {
      Consistent(heap) && tflmObj.HeapBlock?
    }

    /** The memory the owned blocks take together. */
    function Footprint(heap: Heap): int
      reads this, heap
      requires Consistent(heap)
    {
      heap.blocks[self]
      + (if tflmObj.HeapBlock? then heap.blocks[tflmObj.id] else 0)
      + (if arenaBuffer.HeapBlock? then heap.blocks[arenaBuffer.id] else 0)
    }

    /** Since the heap stood at `blocks0` and `avail0`, it has gained exactly the object's blocks. */
    ghost predicate Tracks(heap: Heap, blocks0: map<nat, nat>, avail0: int)
      reads this, heap
    {
      Consistent(heap) && heap.blocks - Owned() == blocks0 && Owned() !! blocks0.Keys
      && heap.avail + Footprint(heap) == avail0
    }

    /** The release sequence of deinit: delete the interpreter, free the arena, free the object. */
    method Release(heap: Heap)
      requires Consistent(heap)
      modifies heap
      ensures heap.Valid()
      ensures heap.blocks == old(heap.blocks) - Owned()
      ensures heap.avail == old(heap.avail) + old(Footprint(heap))
    {
      heap.Free(tflmObj);
      heap.Free(arenaBuffer);
      heap.Free(HeapBlock(self));
    }

    /**
     * The ret_err path of init as written: it frees the arena and the object
     * but not the interpreter, which stays allocated.
     */
    method ReleaseAsWritten(heap: Heap)
      requires Consistent(heap)
      modifies heap
      ensures heap.Valid()
      ensures heap.blocks == old(heap.blocks) - Owned() + (if tflmObj.HeapBlock? then map[tflmObj.id := old(heap.blocks)[tflmObj.id]] else map[])
      ensures heap.avail == old(heap.avail) + old(Footprint(heap)) - (if tflmObj.HeapBlock? then old(heap.blocks)[tflmObj.id] else 0)
    {
      heap.Free(arenaBuffer);
      heap.Free(HeapBlock(self));
    }

    /** Init's arena step: allocate an aligned arena when the caller gives none. */
    method TakeArena(heap: Heap, callerArena: Ptr, arenaSize: int, ghost blocks0: map<nat, nat>, ghost avail0: int)
      returns (ok: bool, arena: Ptr)
      requires Tracks(heap, blocks0, avail0) && arenaBuffer.Null? && tflmObj.Null?
      modifies heap, this`arenaBuffer
      ensures Tracks(heap, blocks0, avail0) && tflmObj.Null?
      ensures ok <==> !callerArena.Null? || ArenaRequest(arenaSize) <= old(heap.avail)
      ensures !callerArena.Null? ==> arenaBuffer.Null? && arena == callerArena && heap.avail == old(heap.avail)
      ensures callerArena.Null? && ok ==>
        arenaBuffer.HeapBlock? && arena == arenaBuffer && heap.avail == old(heap.avail) - ArenaRequest(arenaSize)
    {
      arena := callerArena;
      if arena.Null? {
        arenaBuffer := heap.Alloc(ArenaRequest(arenaSize));
        if arenaBuffer.Null? {
          return false, arena;
        }
        arena := arenaBuffer;
      }
      ok := true;
    }

    /** Init's interpreter step: C++ new never yields NULL, so the NULL check after it is never taken. */
    method TakeInterpreter(heap: Heap, ghost blocks0: map<nat, nat>, ghost avail0: int)
      requires Tracks(heap, blocks0, avail0) && tflmObj.Null?
      modifies heap, this`tflmObj
      ensures Tracks(heap, blocks0, avail0) && tflmObj.HeapBlock? && heap.blocks[tflmObj.id] == 0
      ensures heap.avail == old(heap.avail)
    {
      tflmObj := heap.New();
    }

    /**
     * The profiling tail of a run: the cycles since the start less the
     * NPU's share are the CPU's; an NPU share larger than the whole is a
     * cycle count error and records nothing.
     */
    method RecordCycles(inv: Invocation, platform: Platform) returns (status: Status)
      requires mCpuCycles == inv.start
      modifies this`mNpuCycles, this`npu, this`cpu, this`mSumFrames
      ensures status == (if CycleCountOk(inv, CountsNpu(platform)) then Success else CycleCountError)
      ensures status == CycleCountError ==> unchanged(this)
      ensures status == Success ==>
        cpu == Observe(old(cpu), CpuShare(inv, CountsNpu(platform)), old(mSumFrames))
        && npu == (if CountsNpu(platform) then Observe(old(npu), inv.npuCycles, old(mSumFrames)) else old(npu))
        && mNpuCycles == (if CountsNpu(platform) then inv.npuCycles else old(mNpuCycles))
        && mSumFrames == Wrap32(old(mSumFrames) + 1)
    {
      var cycles := inv.end;
      var cpuCyclesOnly: int := Wrap64(cycles - mCpuCycles);
      if CountsNpu(platform) {
        var normNpuCycles := NormNpuCycles(inv);
        if normNpuCycles > cpuCyclesOnly {
          return CycleCountError;
        }
        mNpuCycles := inv.npuCycles;
        npu := Observe(npu, mNpuCycles, mSumFrames);
        cpuCyclesOnly := cpuCyclesOnly - normNpuCycles;
      }
      cpu := Observe(cpu, cpuCyclesOnly, mSumFrames);
      mSumFrames := Wrap32(mSumFrames + 1);
      status := Success;
    }
  }

  /** The fields a successful init leaves in the runtime object. */
  ghost predicate Initialised(r: Runtime, b: ModelBin, interp: Interpreter)
    reads r
  {
    r.name == b.name && r.modelSize == b.modelSize
    && r.input == interp.inputPtr && r.inputSize == interp.inputElements
    && r.inputZeroPoint == interp.inputZeroPoint && r.inputScale == interp.inputScale
    && r.modelTimeSteps == interp.timeSteps
    && r.output == interp.outputPtr && r.outputSize == interp.outputElements
    && r.bufferSize == interp.usedArena
    && r.outputZeroPoint == interp.outputZeroPoint && r.outputScale == interp.outputScale
    && r.libError == 0 && r.profiling == ProfileDisable
    && r.mSumFrames == 0 && r.cpu == Cleared && r.npu == Cleared
  }

  // ---------------------------------------------------------------------
  // Lifecycle.

  /**
   * The common first half of init, up to and including the interpreter's
   * construction: object, name, sizes, arena.
   */
  method Prepare(heap: Heap, b: ModelBin, buffer: Option<ModelBuffer>, objBytes: nat)
    returns (status: Status, r: Runtime?)
    requires heap.Valid()
    modifies heap
    ensures heap.Valid()
    ensures status == Success || status == AllocErr
    ensures status == Success <==>
      objBytes <= old(heap.avail)
      && (CallerArena(buffer).Null? ==> ArenaRequest(ArenaSize(b, buffer)) <= old(heap.avail) - objBytes)
    ensures status == AllocErr ==> heap.blocks == old(heap.blocks) && heap.avail == old(heap.avail)
    ensures status == Success ==>
      r != null && fresh(r) && r.Tracks(heap, old(heap.blocks), old(heap.avail))
      && r.tflmObj.HeapBlock? && heap.blocks[r.tflmObj.id] == 0
      && r.Footprint(heap) == objBytes + (if CallerArena(buffer).Null? then ArenaRequest(ArenaSize(b, buffer)) else 0)
      && (r.arenaBuffer.HeapBlock? <==> CallerArena(buffer).Null?)
      && r.name == b.name && r.modelSize == b.modelSize && r.bufferSize == ArenaSize(b, buffer)
      && r.libError == 0 && r.profiling == ProfileDisable
      && r.mSumFrames == 0 && r.cpu == Cleared && r.npu == Cleared
  {
    r := NewRuntime(heap, b, buffer, objBytes);
    if r == null {
      return AllocErr, null;
    }
    var ok, arena := r.TakeArena(heap, CallerArena(buffer), ArenaSize(b, buffer), old(heap.blocks), old(heap.avail));
    if !ok {
      r.Release(heap);
      return AllocErr, null;
    }
    r.TakeInterpreter(heap, old(heap.blocks), old(heap.avail));
    status := Success;
  }

  /** The calloc of the runtime object, with the model's name, size and arena size filled in. */
  method NewRuntime(heap: Heap, b: ModelBin, buffer: Option<ModelBuffer>, objBytes: nat) returns (r: Runtime?)
    requires heap.Valid()
    modifies heap
    ensures heap.Valid()
    ensures r == null <==> objBytes > old(heap.avail)
    ensures r == null ==> heap.blocks == old(heap.blocks) && heap.avail == old(heap.avail)
    ensures r != null ==>
      fresh(r) && r.Tracks(heap, old(heap.blocks), old(heap.avail)) && r.Footprint(heap) == objBytes
      && r.arenaBuffer.Null? && r.tflmObj.Null?
      && r.name == b.name && r.modelSize == b.modelSize && r.bufferSize == ArenaSize(b, buffer)
      && r.libError == 0 && r.profiling == ProfileDisable
      && r.mSumFrames == 0 && r.cpu == Cleared && r.npu == Cleared
  {
    var block := heap.Alloc(objBytes);
    if block.Null? {
      return null;
    }
    r := new Runtime(block.id);
    r.name := b.name;
    r.modelSize := b.modelSize;
    r.bufferSize := ArenaSize(b, buffer);
  }

  /** Init's last step: copy the tensor parameters out of the interpreter. */
  method Fill(r: Runtime, interp: Interpreter)
    modifies r
    ensures r.tflmObj == old(r.tflmObj) && r.arenaBuffer == old(r.arenaBuffer)
    ensures r.name == old(r.name) && r.modelSize == old(r.modelSize)
    ensures r.libError == old(r.libError) && r.profiling == old(r.profiling)
    ensures r.mSumFrames == old(r.mSumFrames) && r.cpu == old(r.cpu) && r.npu == old(r.npu)
    ensures r.input == interp.inputPtr && r.inputSize == interp.inputElements
    ensures r.inputZeroPoint == interp.inputZeroPoint && r.inputScale == interp.inputScale
    ensures r.modelTimeSteps == interp.timeSteps
    ensures r.output == interp.outputPtr && r.outputSize == interp.outputElements
    ensures r.bufferSize == interp.usedArena
    ensures r.outputZeroPoint == interp.outputZeroPoint && r.outputScale == interp.outputScale
  {
    r.input := interp.inputPtr;
    r.inputSize := interp.inputElements;
    r.inputZeroPoint := interp.inputZeroPoint;
    r.inputScale := interp.inputScale;
    r.modelTimeSteps := interp.timeSteps;
    r.outputSize := interp.outputElements;
    r.output := interp.outputPtr;
    r.bufferSize := interp.usedArena;
    r.outputZeroPoint := interp.outputZeroPoint;
    r.outputScale := interp.outputScale;
  }

  /**
   * mtb_ml_model_init with the tensor-allocation failure unwinding
   * everything, the interpreter included. Every failure leaves the heap and
   * *object as they were; success writes *object and leaves exactly the
   * object's owned blocks added to the heap.
   */
  method Init(heap: Heap, bin: Option<ModelBin>, buffer: Option<ModelBuffer>, obj: Slot?<Runtime?>,
              interp: Interpreter, objBytes: nat)
    returns (status: Status)
    requires heap.Valid()
    modifies heap, obj
    ensures heap.Valid()
    ensures status == InitOutcome(bin, obj != null, buffer, interp, objBytes, old(heap.avail))
    ensures status == BadArg ==> unchanged(heap)
    ensures status != Success ==>
      heap.blocks == old(heap.blocks) && heap.avail == old(heap.avail)
      && (obj != null ==> obj.value == old(obj.value))
    ensures status == Success ==>
      obj != null && obj.value != null && fresh(obj.value) && obj.value.Valid(heap)
      && heap.blocks - obj.value.Owned() == old(heap.blocks)
      && obj.value.Owned() !! old(heap.blocks).Keys
      && heap.avail == old(heap.avail) - obj.value.Footprint(heap)
      && (obj.value.arenaBuffer.HeapBlock? <==> CallerArena(buffer).Null?)
      && Initialised(obj.value, bin.value, interp)
  {
    if !ArgsOk(bin, obj != null) {
      return BadArg;
    }
    var r;
    status, r := Prepare(heap, bin.value, buffer, objBytes);
    if status != Success {
      return;
    }
    if !interp.allocationOk {
      r.Release(heap);
      return AllocErr;
    }
    Fill(r, interp);
    obj.value := r;
  }

  /**
   * mtb_ml_model_init as written: identical, except that a failed tensor
   * allocation jumps to ret_err, which frees the arena and the object but
   * never deletes the interpreter. That path leaves one extra block live.
   */
  method InitAsWritten(heap: Heap, bin: Option<ModelBin>, buffer: Option<ModelBuffer>, obj: Slot?<Runtime?>,
                       interp: Interpreter, objBytes: nat)
    returns (status: Status, ghost leaked: Option<nat>)
    requires heap.Valid()
    modifies heap, obj
    ensures heap.Valid()
    ensures status == InitOutcome(bin, obj != null, buffer, interp, objBytes, old(heap.avail))
    ensures status != Success && leaked.None? ==>
      heap.blocks == old(heap.blocks) && heap.avail == old(heap.avail)
    ensures status != Success && obj != null ==> obj.value == old(obj.value)
    ensures leaked.Some? <==>
      ArgsOk(bin, obj != null) && objBytes <= old(heap.avail)
      && (CallerArena(buffer).Null? ==> ArenaRequest(ArenaSize(bin.value, buffer)) <= old(heap.avail) - objBytes)
      && !interp.allocationOk
    ensures leaked.Some? ==>
      status == AllocErr && leaked.value !in old(heap.blocks)
      && heap.blocks == old(heap.blocks)[leaked.value := 0] && heap.avail == old(heap.avail)
    ensures status == Success ==>
      obj != null && obj.value != null && fresh(obj.value) && obj.value.Valid(heap)
      && heap.blocks - obj.value.Owned() == old(heap.blocks)
      && Initialised(obj.value, bin.value, interp)
  {
    leaked := None;
    if !ArgsOk(bin, obj != null) {
      return BadArg, leaked;
    }
    var r;
    status, r := Prepare(heap, bin.value, buffer, objBytes);
    if status != Success {
      return;
    }
    if !interp.allocationOk {
      leaked := Some(r.tflmObj.id);
      r.ReleaseAsWritten(heap);
      assert heap.blocks == old(heap.blocks)[leaked.value := 0];
      return AllocErr, leaked;
    }
    Fill(r, interp);
    obj.value := r;
  }

  /**
   * A concrete run of the as-written init on a 4096-byte heap whose
   * interpreter cannot allocate its tensors: init reports ALLOC_ERR, yet one
   * block stays live, and nothing refers to it any more.
   */
  method TensorAllocationFailureLeaks() returns (status: Status, liveBlocks: nat, liveBlocksCorrected: nat)
    ensures status == AllocErr
    ensures liveBlocks == 1
    ensures liveBlocksCorrected == 0
  {
    var bin := Some(ModelBin("kws", Static(0x1000), 20000, 1024));
    var interp := Interpreter(false, Null, 0, 0, 0.0, 0, Null, 0, 0, 0.0, 0);
    var heap := new Heap(4096);
    var obj := new Slot<Runtime?>(null);
    ghost var leaked;
    status, leaked := InitAsWritten(heap, bin, None, obj, interp, 256);
    liveBlocks := |heap.blocks.Keys|;
    var heap2 := new Heap(4096);
    var status2 := Init(heap2, bin, None, obj, interp, 256);
    liveBlocksCorrected := |heap2.blocks.Keys|;
  }

  /** mtb_ml_model_deinit: BAD_ARG on NULL, otherwise the interpreter, the allocated arena and the object go back. */
  method Deinit(heap: Heap, obj: Runtime?) returns (status: Status)
    requires obj != null ==> obj.Consistent(heap)
    modifies heap
    ensures obj == null ==> status == BadArg && unchanged(heap)
    ensures obj != null ==>
      status == Success && heap.Valid()
      && heap.blocks == old(heap.blocks) - obj.Owned()
      && heap.avail == old(heap.avail) + old(obj.Footprint(heap))
  {
    if obj == null {
      return BadArg;
    }
    obj.Release(heap);
    status := Success;
  }

  /** Bringing a model up and tearing it down leaves the heap as it found it. */
  method InitThenDeinit(heap: Heap, bin: Option<ModelBin>, buffer: Option<ModelBuffer>,
                        interp: Interpreter, objBytes: nat)
    returns (status: Status)
    requires heap.Valid()
    modifies heap
    ensures heap.Valid()
    ensures heap.blocks == old(heap.blocks) && heap.avail == old(heap.avail)
  {
    var obj := new Slot<Runtime?>(null);
    status := Init(heap, bin, buffer, obj, interp, objBytes);
    if status == Success {
      var r := obj.value;
      var _ := Deinit(heap, r);
    }
  }

  // ---------------------------------------------------------------------
  // Inference and profiling.

  /**
   * MTBTFLiteMicro::SetInput: copy input->bytes / sizeof(inputT) elements
   * from the caller's data into the interpreter's input tensor.
   */
  method SetInput(tensor: array<real>, input: array<real>)
    requires input.Length >= tensor.Length
    modifies tensor
    ensures tensor[..] == old(input[..tensor.Length])
  {
    ghost var src := input[..tensor.Length];
    var i := 0;
    while i < tensor.Length
      invariant 0 <= i <= tensor.Length
      invariant tensor[..i] == src[..i]
      invariant forall k :: i <= k < tensor.Length ==> input[k] == src[k]
    {
      tensor[i] := input[i];
      i := i + 1;
    }
  }

  /**
   * mtb_ml_model_run. `tensor` is the interpreter's input tensor. With the
   * MODEL bit set, the start time stamp is taken before the inference and a
   * successful inference is accounted: CYCLE_COUNT_ERROR when the NPU share
   * exceeds the delta (no counter moves), else the NPU tally, the CPU tally
   * and the frame counter advance.
   */
  method Run(obj: Runtime?, input: array?<real>, tensor: array<real>, inv: Invocation, platform: Platform)
    returns (status: Status)
    requires input != null ==> input.Length >= tensor.Length
    modifies (if obj == null then {} else {obj})`mCpuCycles,
      (if obj == null then {} else {obj})`libError,
      (if obj == null then {} else {obj})`mNpuCycles,
      (if obj == null then {} else {obj})`npu,
      (if obj == null then {} else {obj})`cpu,
      (if obj == null then {} else {obj})`mSumFrames,
      tensor
    ensures obj == null || input == null ==>
      status == BadArg && (obj == null || unchanged(obj)) && unchanged(tensor)
    ensures obj != null && input != null ==>
      tensor[..] == old(input[..tensor.Length])
      && obj.mCpuCycles == (if ProfilesModel(obj.profiling) then inv.start else old(obj.mCpuCycles))
      && obj.profiling == old(obj.profiling) && obj.tflmObj == old(obj.tflmObj)
      && obj.arenaBuffer == old(obj.arenaBuffer) && obj.output == old(obj.output)
      && obj.outputSize == old(obj.outputSize) && obj.inputSize == old(obj.inputSize)
    ensures obj != null && input != null && inv.result != 0 ==>
      status == InferenceError && obj.libError == inv.result
      && obj.cpu == old(obj.cpu) && obj.npu == old(obj.npu) && obj.mSumFrames == old(obj.mSumFrames)
      && obj.mNpuCycles == old(obj.mNpuCycles)
    ensures obj != null && input != null && inv.result == 0 ==> obj.libError == old(obj.libError)
    ensures obj != null && input != null && inv.result == 0 && !ProfilesModel(obj.profiling) ==>
      status == Success
      && obj.cpu == old(obj.cpu) && obj.npu == old(obj.npu) && obj.mSumFrames == old(obj.mSumFrames)
      && obj.mNpuCycles == old(obj.mNpuCycles)
    ensures obj != null && input != null && inv.result == 0 && ProfilesModel(obj.profiling) && !CycleCountOk(inv, CountsNpu(platform)) ==>
      status == CycleCountError
      && obj.cpu == old(obj.cpu) && obj.npu == old(obj.npu) && obj.mSumFrames == old(obj.mSumFrames)
      && obj.mNpuCycles == old(obj.mNpuCycles)
    ensures obj != null && input != null && inv.result == 0 && ProfilesModel(obj.profiling) && CycleCountOk(inv, CountsNpu(platform)) ==>
      status == Success
      && obj.cpu == Observe(old(obj.cpu), CpuShare(inv, CountsNpu(platform)), old(obj.mSumFrames))
      && obj.npu == (if CountsNpu(platform) then Observe(old(obj.npu), inv.npuCycles, old(obj.mSumFrames)) else old(obj.npu))
      && obj.mNpuCycles == (if CountsNpu(platform) then inv.npuCycles else old(obj.mNpuCycles))
      && obj.mSumFrames == Wrap32(old(obj.mSumFrames) + 1)
  {
    if obj == null || input == null {
      return BadArg;
    }
    SetInput(tensor, input);
    if ProfilesModel(obj.profiling) {
      obj.mCpuCycles := inv.start;
    }
    if inv.result != 0 {
      obj.libError := inv.result;
      return InferenceError;
    }
    status := Success;
    if ProfilesModel(obj.profiling) {
      status := obj.RecordCycles(inv, platform);
    }
  }

  /**
   * mtb_ml_model_profile_config: store the configuration; any value other
   * than DISABLE clears the CPU counters and the frame counter; on a board
   * with an NPU the NPU counters are cleared whatever the value.
   */
  method ProfileConfig(obj: Runtime?, config: ProfileConfig, platform: Platform) returns (status: Status)
    modifies (if obj == null then {} else {obj})`profiling,
      (if obj == null then {} else {obj})`mSumFrames,
      (if obj == null then {} else {obj})`cpu,
      (if obj == null then {} else {obj})`npu
    ensures status == BadArg <==> obj == null
    ensures status == Success || status == BadArg
    ensures obj != null ==>
      obj.profiling == config
      && obj.mSumFrames == (if config != ProfileDisable then 0 else old(obj.mSumFrames))
      && obj.cpu == (if config != ProfileDisable then Cleared else old(obj.cpu))
      && obj.npu == (if HasNpu(platform) then Cleared else old(obj.npu))
      && obj.mCpuCycles == old(obj.mCpuCycles) && obj.mNpuCycles == old(obj.mNpuCycles)
      && obj.libError == old(obj.libError) && obj.tflmObj == old(obj.tflmObj)
      && obj.arenaBuffer == old(obj.arenaBuffer)
  {
    if obj == null {
      return BadArg;
    }
    obj.profiling := config;
    if obj.profiling != ProfileDisable {
      obj.mSumFrames := 0;
      obj.cpu := Cleared;
    }
    if HasNpu(platform) {
      obj.npu := Cleared;
    }
    status := Success;
  }

  /**
   * A profiling session: enable model profiling, then run successfully once
   * per invocation. The CPU tally (and, where NPU cycles are counted, the
   * NPU tally) ends up as the replay of the per-run counts, so its sum is
   * their total modulo 2^64, its peak is their maximum and its peak frame
   * is the first run that reached it; the frame counter is the number of runs.
   */
  method ProfileSession(obj: Runtime, input: array<real>, tensor: array<real>, runs: seq<Invocation>, platform: Platform)
    requires input.Length >= tensor.Length && |runs| < Two32
    requires forall i :: 0 <= i < |runs| ==> runs[i].result == 0 && CycleCountOk(runs[i], CountsNpu(platform))
    modifies obj, tensor
    ensures obj.cpu == Replay(CpuShares(runs, CountsNpu(platform)))
    ensures CountsNpu(platform) ==> obj.npu == Replay(NpuCounts(runs))
    ensures obj.mSumFrames == |runs|
  {
    var _ := ProfileConfig(obj, ProfileEnableModel, platform);
    ghost var cpuShares := CpuShares(runs, CountsNpu(platform));
    ghost var npuCounts := NpuCounts(runs);
    var i := 0;
    while i < |runs|
      invariant 0 <= i <= |runs|
      invariant obj.profiling == ProfileEnableModel
      invariant obj.mSumFrames == i
      invariant obj.cpu == Replay(cpuShares[..i])
      invariant CountsNpu(platform) ==> obj.npu == Replay(npuCounts[..i])
    {
      var _ := Run(obj, input, tensor, runs[i], platform);
      ReplayStep(cpuShares, i);
      ReplayStep(npuCounts, i);
      i := i + 1;
    }
    assert cpuShares[..i] == cpuShares;
    assert npuCounts[..i] == npuCounts;
  }

  // ---------------------------------------------------------------------
  // Accessors.

  /** mtb_ml_model_get_output: writes each out-parameter that is not NULL. */
  method GetOutput(obj: Runtime?, outputPtr: Slot?<Ptr>, sizePtr: Slot?<int>) returns (status: Status)
    modifies outputPtr, sizePtr
    ensures status == BadArg <==> obj == null
    ensures status == Success || status == BadArg
    ensures obj == null ==> (outputPtr == null || unchanged(outputPtr)) && (sizePtr == null || unchanged(sizePtr))
    ensures obj != null && outputPtr != null ==> outputPtr.value == obj.output
    ensures obj != null && sizePtr != null ==> sizePtr.value == obj.outputSize
  {
    if obj == null {
      return BadArg;
    }
    if outputPtr != null {
      outputPtr.value := obj.output;
    }
    if sizePtr != null {
      sizePtr.value := obj.outputSize;
    }
    status := Success;
  }

  /** mtb_ml_model_get_input_size: reads the field with no NULL check, so the object must exist. */
  function GetInputSize(obj: Runtime): (n: int)
    reads obj
    ensures n == obj.inputSize
  {
    obj.inputSize
  }

  /** mtb_ml_model_rnn_reset_all_parameters: an interpreter failure is kept in lib_error and reported as BAD_ARG. */
  method RnnResetAllParameters(obj: Runtime?, resetResult: int) returns (status: Status)
    modifies (if obj == null then {} else {obj})`libError
    ensures status == Success <==> obj != null && resetResult == 0
    ensures status == Success || status == BadArg
    ensures obj != null ==>
      obj.libError == (if resetResult == 0 then old(obj.libError) else resetResult)
      && obj.cpu == old(obj.cpu) && obj.mSumFrames == old(obj.mSumFrames) && obj.profiling == old(obj.profiling)
  {
    if obj == null {
      return BadArg;
    }
    if resetResult != 0 {
      obj.libError := resetResult;
      return BadArg;
    }
    status := Success;
  }
}
