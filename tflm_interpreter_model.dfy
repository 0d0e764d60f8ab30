// The runtime object of the older TensorFlow Lite Micro back end with an
// interpreter: the arena is the caller's or a plain malloc of the arena
// size, buffer_size reports the arena bytes in use plus 1023, and each run
// keeps 32-bit cycle counters. The RNN and Q-format entry points are stubs.

module TflmInterpreterModel {
  import opened Common
  import opened Profiling
  import TflmModel

  /** The result init arrives at: argument check, object, arena (malloc of the size as a size_t), tensor allocation. */
  function InitOutcome(bin: Option<TflmModel.ModelBin>, hasObject: bool, buffer: Option<TflmModel.ModelBuffer>,
                       interp: TflmModel.Interpreter, objBytes: nat, avail: int): (status: Status)
    ensures status in {Success, BadArg, AllocErr}
  {
    if !TflmModel.ArgsOk(bin, hasObject) then BadArg
    else if objBytes > avail then AllocErr
    else if TflmModel.CallerArena(buffer).Null?
            && Wrap32(TflmModel.ArenaSize(bin.value, buffer)) > avail - objBytes then AllocErr
    else if !interp.allocationOk then AllocErr
    else Success
  }

  /** mtb_ml_model_t in this build. */
  class Runtime {
    const self: nat
    var name: seq<char>
    var modelSize: int
    var bufferSize: int
    var inputSize: int
    var outputSize: int
    var libError: int
    var output: Ptr
    var tflmObj: Ptr
    var outputZeroPoint: int
    var outputScale: real
    var profiling: ProfileConfig
    /** m_cycles: the start stamp during a run, the run's delta afterwards. */
    var mCycles: u32
    var mSumFrames: u32
    /** m_sum_cycles, m_peak_cycles and m_peak_frame. */
    var tally: Tally
    var arenaBuffer: Ptr

    /** The object as calloc leaves it. */
    constructor(id: nat)
      ensures self == id
      ensures name == [] && libError == 0 && tflmObj == Null && arenaBuffer == Null
      ensures profiling == ProfileDisable && mCycles == 0 && mSumFrames == 0 && tally == Cleared
    {
      self := id;
      name := [];
      modelSize := 0;
      bufferSize := 0;
      inputSize := 0;
      outputSize := 0;
      libError := 0;
      output := Null;
      tflmObj := Null;
      outputZeroPoint := 0;
      outputScale := 0.0;
      profiling := ProfileDisable;
      mCycles := 0;
      mSumFrames := 0;
      tally := Cleared;
      arenaBuffer := Null;
    }

    /** The heap blocks deinit gives back: the object, the interpreter and an allocated arena. */
    function Owned(): set<nat>
      reads this
    {
      {self}
      + (if tflmObj.HeapBlock? then {tflmObj.id} else {})
      + (if arenaBuffer.HeapBlock? then {arenaBuffer.id} else {})
    }

    /** The owned blocks are live and distinct. */
    ghost predicate Consistent(heap: Heap)
      reads this, heap
    {
      heap.Valid() && self in heap.blocks
      && (arenaBuffer.Null? || arenaBuffer.HeapBlock?)
      && (tflmObj.Null? || tflmObj.HeapBlock?)
      && (arenaBuffer.HeapBlock? ==> arenaBuffer.id in heap.blocks && arenaBuffer.id != self)
      && (tflmObj.HeapBlock? ==>
            tflmObj.id in heap.blocks && tflmObj.id != self
            && (arenaBuffer.HeapBlock? ==> tflmObj.id != arenaBuffer.id))
    }

    /** A fully initialised object: consistent, with its interpreter in place. */
    ghost predicate Valid(heap: Heap)
      reads this, heap
    {
      Consistent(heap) && tflmObj.HeapBlock?
    }

    /** The memory the owned blocks take together. */
    function Footprint(heap: Heap): int
      reads this, heap
      requires Consistent(heap)
    {
      heap.blocks[self]
      + (if tflmObj.HeapBlock? then heap.blocks[tflmObj.id] else 0)
      + (if arenaBuffer.HeapBlock? then heap.blocks[arenaBuffer.id] else 0)
    }

    /** Since the heap stood at `blocks0` and `avail0`, it has gained exactly the object's blocks. */
    ghost predicate Tracks(heap: Heap, blocks0: map<nat, nat>, avail0: int)
      reads this, heap
    {
      Consistent(heap) && heap.blocks - Owned() == blocks0 && Owned() !! blocks0.Keys
      && heap.avail + Footprint(heap) == avail0
    }

    /** The release sequence of deinit: delete the interpreter, free the arena, free the object. */
    method Release(heap: Heap)
      requires Consistent(heap)
      modifies heap
      ensures heap.Valid()
      ensures heap.blocks == old(heap.blocks) - Owned()
      ensures heap.avail == old(heap.avail) + old(Footprint(heap))
    {
      heap.Free(tflmObj);
      heap.Free(arenaBuffer);
      heap.Free(HeapBlock(self));
    }

    /** The ret_err path of init as written: the arena and the object are freed, the interpreter is not. */
    method ReleaseAsWritten(heap: Heap)
      requires Consistent(heap)
      modifies heap
      ensures heap.Valid()
      ensures heap.blocks == old(heap.blocks) - Owned() + (if tflmObj.HeapBlock? then map[tflmObj.id := old(heap.blocks)[tflmObj.id]] else map[])
      ensures heap.avail == old(heap.avail) + old(Footprint(heap)) - (if tflmObj.HeapBlock? then old(heap.blocks)[tflmObj.id] else 0)
    {
      heap.Free(arenaBuffer);
      heap.Free(HeapBlock(self));
    }

    /** Init's arena step: malloc the requested size when the caller gives no arena. */
    method TakeArena(heap: Heap, callerArena: Ptr, request: int, ghost blocks0: map<nat, nat>, ghost avail0: int)
      returns (ok: bool, arena: Ptr)
      requires Tracks(heap, blocks0, avail0) && arenaBuffer.Null? && tflmObj.Null?
      modifies heap, this`arenaBuffer
      ensures Tracks(heap, blocks0, avail0) && tflmObj.Null?
      ensures ok <==> !callerArena.Null? || 0 <= request <= old(heap.avail)
      ensures !callerArena.Null? ==> arenaBuffer.Null? && arena == callerArena && heap.avail == old(heap.avail)
      ensures callerArena.Null? && ok ==>
        arenaBuffer.HeapBlock? && arena == arenaBuffer && heap.avail == old(heap.avail) - request
    {
      arena := callerArena;
      if arena.Null? {
        arenaBuffer := heap.Alloc(request);
        if arenaBuffer.Null? {
          return false, arena;
        }
        arena := arenaBuffer;
      }
      ok := true;
    }

    /** Init's interpreter step: C++ new never yields NULL, so the BAD_MODEL branch after it is never taken. */
    method TakeInterpreter(heap: Heap, ghost blocks0: map<nat, nat>, ghost avail0: int)
      requires Tracks(heap, blocks0, avail0) && tflmObj.Null?
      modifies heap, this`tflmObj
      ensures Tracks(heap, blocks0, avail0) && tflmObj.HeapBlock? && heap.blocks[tflmObj.id] == 0
      ensures heap.avail == old(heap.avail)
    {
      tflmObj := heap.New();
    }
  }

  /** The fields a successful init leaves in the runtime object; buffer_size is the used arena plus 1023. */
  ghost predicate Initialised(r: Runtime, b: TflmModel.ModelBin, interp: TflmModel.Interpreter)
    reads r
  {
    r.name == b.name && r.modelSize == b.modelSize
    && r.inputSize == interp.inputElements
    && r.output == interp.outputPtr && r.outputSize == interp.outputElements
    && r.bufferSize == interp.usedArena + 1023
    && r.outputZeroPoint == interp.outputZeroPoint && r.outputScale == interp.outputScale
    && r.libError == 0 && r.profiling == ProfileDisable
    && r.mSumFrames == 0 && r.tally == Cleared
  }

  /** Init up to and including the interpreter's construction: object, name, sizes, arena. */
  method Prepare(heap: Heap, b: TflmModel.ModelBin, buffer: Option<TflmModel.ModelBuffer>, objBytes: nat)
    returns (status: Status, r: Runtime?)
    requires heap.Valid()
    modifies heap
    ensures heap.Valid()
    ensures status == Success || status == AllocErr
    ensures status == Success <==>
      objBytes <= old(heap.avail)
      && (TflmModel.CallerArena(buffer).Null? ==> Wrap32(TflmModel.ArenaSize(b, buffer)) <= old(heap.avail) - objBytes)
    ensures status == AllocErr ==> heap.blocks == old(heap.blocks) && heap.avail == old(heap.avail)
    ensures status == Success ==>
      r != null && fresh(r) && r.Tracks(heap, old(heap.blocks), old(heap.avail))
      && r.tflmObj.HeapBlock? && heap.blocks[r.tflmObj.id] == 0
      && r.Footprint(heap) == objBytes + (if TflmModel.CallerArena(buffer).Null? then Wrap32(TflmModel.ArenaSize(b, buffer)) else 0)
      && (r.arenaBuffer.HeapBlock? <==> TflmModel.CallerArena(buffer).Null?)
      && r.name == b.name && r.modelSize == b.modelSize
      && r.libError == 0 && r.profiling == ProfileDisable && r.mSumFrames == 0 && r.tally == Cleared
  {
    r := NewRuntime(heap, b, buffer, objBytes);
    if r == null {
      return AllocErr, null;
    }
    var ok, arena := r.TakeArena(heap, TflmModel.CallerArena(buffer), Wrap32(TflmModel.ArenaSize(b, buffer)),
                                 old(heap.blocks), old(heap.avail));
    if !ok {
      r.Release(heap);
      return AllocErr, null;
    }
    r.TakeInterpreter(heap, old(heap.blocks), old(heap.avail));
    status := Success;
  }

  /** The calloc of the runtime object, with the model's name, size and arena size filled in. */
  method NewRuntime(heap: Heap, b: TflmModel.ModelBin, buffer: Option<TflmModel.ModelBuffer>, objBytes: nat)
    returns (r: Runtime?)
    requires heap.Valid()
    modifies heap
    ensures heap.Valid()
    ensures r == null <==> objBytes > old(heap.avail)
    ensures r == null ==> heap.blocks == old(heap.blocks) && heap.avail == old(heap.avail)
    ensures r != null ==>
      fresh(r) && r.Tracks(heap, old(heap.blocks), old(heap.avail)) && r.Footprint(heap) == objBytes
      && r.arenaBuffer.Null? && r.tflmObj.Null?
      && r.name == b.name && r.modelSize == b.modelSize && r.bufferSize == TflmModel.ArenaSize(b, buffer)
      && r.libError == 0 && r.profiling == ProfileDisable && r.mSumFrames == 0 && r.tally == Cleared
  {
    var block := heap.Alloc(objBytes);
    if block.Null? {
      return null;
    }
    r := new Runtime(block.id);
    r.name := b.name;
    r.modelSize := b.modelSize;
    r.bufferSize := TflmModel.ArenaSize(b, buffer);
  }

  /** Init's last step: copy the tensor parameters out of the interpreter. */
  method Fill(r: Runtime, interp: TflmModel.Interpreter)
    modifies r
    ensures r.tflmObj == old(r.tflmObj) && r.arenaBuffer == old(r.arenaBuffer)
    ensures r.name == old(r.name) && r.modelSize == old(r.modelSize)
    ensures r.libError == old(r.libError) && r.profiling == old(r.profiling)
    ensures r.mSumFrames == old(r.mSumFrames) && r.tally == old(r.tally)
    ensures r.inputSize == interp.inputElements
    ensures r.output == interp.outputPtr && r.outputSize == interp.outputElements
    ensures r.bufferSize == interp.usedArena + 1023
    ensures r.outputZeroPoint == interp.outputZeroPoint && r.outputScale == interp.outputScale
  {
    r.inputSize := interp.inputElements;
    r.outputSize := interp.outputElements;
    r.output := interp.outputPtr;
    r.bufferSize := interp.usedArena + 1023;
    r.outputZeroPoint := interp.outputZeroPoint;
    r.outputScale := interp.outputScale;
  }

  /**
   * mtb_ml_model_init with a failed tensor allocation unwinding everything,
   * the interpreter included: every failure leaves the heap and *object as
   * they were.
   */
  method Init(heap: Heap, bin: Option<TflmModel.ModelBin>, buffer: Option<TflmModel.ModelBuffer>,
              obj: Slot?<Runtime?>, interp: TflmModel.Interpreter, objBytes: nat)
    returns (status: Status)
    requires heap.Valid()
    modifies heap, obj
    ensures heap.Valid()
    ensures status == InitOutcome(bin, obj != null, buffer, interp, objBytes, old(heap.avail))
    ensures status == BadArg ==> unchanged(heap)
    ensures status != Success ==>
      heap.blocks == old(heap.blocks) && heap.avail == old(heap.avail)
      && (obj != null ==> obj.value == old(obj.value))
    ensures status == Success ==>
      obj != null && obj.value != null && fresh(obj.value) && obj.value.Valid(heap)
      && heap.blocks - obj.value.Owned() == old(heap.blocks)
      && obj.value.Owned() !! old(heap.blocks).Keys
      && heap.avail == old(heap.avail) - obj.value.Footprint(heap)
      && (obj.value.arenaBuffer.HeapBlock? <==> TflmModel.CallerArena(buffer).Null?)
      && Initialised(obj.value, bin.value, interp)
  {
    if !TflmModel.ArgsOk(bin, obj != null) {
      return BadArg;
    }
    var r;
    status, r := Prepare(heap, bin.value, buffer, objBytes);
    if status != Success {
      return;
    }
    if !interp.allocationOk {
      r.Release(heap);
      return AllocErr;
    }
    Fill(r, interp);
    obj.value := r;
  }

  /**
   * mtb_ml_model_init as written: a failed tensor allocation frees the
   * arena and the object but not the interpreter, which stays allocated.
   */
  method InitAsWritten(heap: Heap, bin: Option<TflmModel.ModelBin>, buffer: Option<TflmModel.ModelBuffer>,
                       obj: Slot?<Runtime?>, interp: TflmModel.Interpreter, objBytes: nat)
    returns (status: Status, ghost leaked: Option<nat>)
    requires heap.Valid()
    modifies heap, obj
    ensures heap.Valid()
    ensures status == InitOutcome(bin, obj != null, buffer, interp, objBytes, old(heap.avail))
    ensures status != Success && leaked.None? ==>
      heap.blocks == old(heap.blocks) && heap.avail == old(heap.avail)
    ensures status != Success && obj != null ==> obj.value == old(obj.value)
    ensures leaked.Some? <==>
      TflmModel.ArgsOk(bin, obj != null) && objBytes <= old(heap.avail)
      && (TflmModel.CallerArena(buffer).Null? ==> Wrap32(TflmModel.ArenaSize(bin.value, buffer)) <= old(heap.avail) - objBytes)
      && !interp.allocationOk
    ensures leaked.Some? ==>
      status == AllocErr && leaked.value !in old(heap.blocks)
      && heap.blocks == old(heap.blocks)[leaked.value := 0] && heap.avail == old(heap.avail)
    ensures status == Success ==>
      obj != null && obj.value != null && fresh(obj.value) && obj.value.Valid(heap)
      && heap.blocks - obj.value.Owned() == old(heap.blocks)
      && Initialised(obj.value, bin.value, interp)
  {
    leaked := None;
    if !TflmModel.ArgsOk(bin, obj != null) {
      return BadArg, leaked;
    }
    var r;
    status, r := Prepare(heap, bin.value, buffer, objBytes);
    if status != Success {
      return;
    }
    if !interp.allocationOk {
      leaked := Some(r.tflmObj.id);
      r.ReleaseAsWritten(heap);
      assert heap.blocks == old(heap.blocks)[leaked.value := 0];
      return AllocErr, leaked;
    }
    Fill(r, interp);
    obj.value := r;
  }

  /** mtb_ml_model_deinit: BAD_ARG on NULL, otherwise the interpreter, the allocated arena and the object go back. */
  method Deinit(heap: Heap, obj: Runtime?) returns (status: Status)
    requires obj != null ==> obj.Consistent(heap)
    modifies heap
    ensures obj == null ==> status == BadArg && unchanged(heap)
    ensures obj != null ==>
      status == Success && heap.Valid()
      && heap.blocks == old(heap.blocks) - obj.Owned()
      && heap.avail == old(heap.avail) + old(obj.Footprint(heap))
  {
    if obj == null {
      return BadArg;
    }
    obj.Release(heap);
    status := Success;
  }

  /** Bringing a model up and tearing it down leaves the heap as it found it. */
  method InitThenDeinit(heap: Heap, bin: Option<TflmModel.ModelBin>, buffer: Option<TflmModel.ModelBuffer>,
                        interp: TflmModel.Interpreter, objBytes: nat)
    returns (status: Status)
    requires heap.Valid()
    modifies heap
    ensures heap.Valid()
    ensures heap.blocks == old(heap.blocks) && heap.avail == old(heap.avail)
  {
    var obj := new Slot<Runtime?>(null);
    status := Init(heap, bin, buffer, obj, interp, objBytes);
    if status == Success {
      var r := obj.value;
      var _ := Deinit(heap, r);
    }
  }

  /**
   * mtb_ml_model_run. `tensor` is the interpreter's input tensor. With the
   * MODEL bit set the 32-bit start stamp goes into m_cycles; after a
   * successful inference m_cycles becomes the 32-bit delta, which the tally
   * observes under the pre-increment frame count.
   */
  method Run(obj: Runtime?, input: array?<real>, tensor: array<real>, inv: Invocation32)
    returns (status: Status)
    requires input != null ==> input.Length >= tensor.Length
    modifies (if obj == null then {} else {obj})`mCycles,
      (if obj == null then {} else {obj})`libError,
      (if obj == null then {} else {obj})`tally,
      (if obj == null then {} else {obj})`mSumFrames,
      tensor
    ensures obj == null || input == null ==>
      status == BadArg && (obj == null || unchanged(obj)) && unchanged(tensor)
    ensures obj != null && input != null ==>
      tensor[..] == old(input[..tensor.Length])
      && obj.profiling == old(obj.profiling) && obj.tflmObj == old(obj.tflmObj)
      && obj.arenaBuffer == old(obj.arenaBuffer) && obj.output == old(obj.output)
    ensures obj != null && input != null && inv.result != 0 ==>
      status == InferenceError && obj.libError == inv.result
      && obj.mCycles == (if ProfilesModel(obj.profiling) then inv.start else old(obj.mCycles))
      && obj.tally == old(obj.tally) && obj.mSumFrames == old(obj.mSumFrames)
    ensures obj != null && input != null && inv.result == 0 ==>
      status == Success && obj.libError == old(obj.libError)
    ensures obj != null && input != null && inv.result == 0 && !ProfilesModel(obj.profiling) ==>
      obj.mCycles == old(obj.mCycles) && obj.tally == old(obj.tally) && obj.mSumFrames == old(obj.mSumFrames)
    ensures obj != null && input != null && inv.result == 0 && ProfilesModel(obj.profiling) ==>
      obj.mCycles == Elapsed32(inv)
      && obj.tally == Observe(old(obj.tally), Elapsed32(inv), old(obj.mSumFrames))
      && obj.mSumFrames == Wrap32(old(obj.mSumFrames) + 1)
  {
    if obj == null || input == null {
      return BadArg;
    }
    TflmModel.SetInput(tensor, input);
    if ProfilesModel(obj.profiling) {
      obj.mCycles := inv.start;
    }
    if inv.result != 0 {
      obj.libError := inv.result;
      return InferenceError;
    }
    if ProfilesModel(obj.profiling) {
      var cycles := inv.end;
      obj.mCycles := Wrap32(cycles - obj.mCycles);
      obj.tally := Observe(obj.tally, obj.mCycles, obj.mSumFrames);
      obj.mSumFrames := Wrap32(obj.mSumFrames + 1);
    }
    status := Success;
  }

  /** mtb_ml_model_profile_config: store the configuration; any value other than DISABLE clears the counters. */
  method ProfileConfig(obj: Runtime?, config: ProfileConfig) returns (status: Status)
    modifies (if obj == null then {} else {obj})`profiling,
      (if obj == null then {} else {obj})`mSumFrames,
      (if obj == null then {} else {obj})`tally
    ensures status == BadArg <==> obj == null
    ensures status == Success || status == BadArg
    ensures obj != null ==>
      obj.profiling == config
      && obj.mSumFrames == (if config != ProfileDisable then 0 else old(obj.mSumFrames))
      && obj.tally == (if config != ProfileDisable then Cleared else old(obj.tally))
      && obj.mCycles == old(obj.mCycles) && obj.libError == old(obj.libError)
      && obj.tflmObj == old(obj.tflmObj) && obj.arenaBuffer == old(obj.arenaBuffer)
  {
    if obj == null {
      return BadArg;
    }
    obj.profiling := config;
    if obj.profiling != ProfileDisable {
      obj.mSumFrames := 0;
      obj.tally := Cleared;
    }
    status := Success;
  }

  /**
   * A profiling session: enable model profiling, then run successfully once
   * per invocation. The tally is the replay of the 32-bit deltas and the
   * frame counter is the number of runs.
   */
  method ProfileSession(obj: Runtime, input: array<real>, tensor: array<real>, runs: seq<Invocation32>)
    requires input.Length >= tensor.Length && |runs| < Two32
    requires forall i :: 0 <= i < |runs| ==> runs[i].result == 0
    modifies obj, tensor
    ensures obj.tally == Replay(Elapsed32s(runs))
    ensures obj.mSumFrames == |runs|
  {
    var _ := ProfileConfig(obj, ProfileEnableModel);
    ghost var deltas := Elapsed32s(runs);
    var i := 0;
    while i < |runs|
      invariant 0 <= i <= |runs|
      invariant obj.profiling == ProfileEnableModel
      invariant obj.mSumFrames == i
      invariant obj.tally == Replay(deltas[..i])
    {
      var _ := Run(obj, input, tensor, runs[i]);
      ReplayStep(deltas, i);
      i := i + 1;
    }
    assert deltas[..i] == deltas;
  }

  /** mtb_ml_model_get_output: writes each out-parameter that is not NULL. */
  method GetOutput(obj: Runtime?, outputPtr: Slot?<Ptr>, sizePtr: Slot?<int>) returns (status: Status)
    modifies outputPtr, sizePtr
    ensures status == BadArg <==> obj == null
    ensures status == Success || status == BadArg
    ensures obj == null ==> (outputPtr == null || unchanged(outputPtr)) && (sizePtr == null || unchanged(sizePtr))
    ensures obj != null && outputPtr != null ==> outputPtr.value == obj.output
    ensures obj != null && sizePtr != null ==> sizePtr.value == obj.outputSize
  {
    if obj == null {
      return BadArg;
    }
    if outputPtr != null {
      outputPtr.value := obj.output;
    }
    if sizePtr != null {
      sizePtr.value := obj.outputSize;
    }
    status := Success;
  }

  /** mtb_ml_model_get_input_size: reads the field with no NULL check, so the object must exist. */
  function GetInputSize(obj: Runtime): (n: int)
    reads obj
    ensures n == obj.inputSize
  {
    obj.inputSize
  }

  // ---------------------------------------------------------------------
  // Stubs: this back end has no recurrent state and no Q-format data.

  /** mtb_ml_model_get_recurrent_time_series_frames: 0 for any object. */
  function GetRecurrentTimeSeriesFrames(obj: Runtime?): (frames: int)
    ensures frames == 0
  {
    0
  }

  /** mtb_ml_model_rnn_state_control: succeeds for any arguments and changes nothing. */
  function RnnStateControl(obj: Runtime?, status: int, winSize: int): (result: Status)
    ensures result == Success
  {
    Success
  }

  /** mtb_ml_model_set_input_q_fraction_bits: succeeds and records nothing. */
  function SetInputQFractionBits(obj: Runtime?, bits: u8): (result: Status)
    ensures result == Success
  {
    Success
  }

  /** mtb_ml_model_get_output_q_fraction_bits: 0 for any object. */
  function GetOutputQFractionBits(obj: Runtime?): (bits: u8)
    ensures bits == 0
  {
    0
  }
}
