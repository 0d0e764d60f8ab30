// The runtime object of the TensorFlow Lite Micro back end without an
// interpreter (the model is compiled into an RMF API table): init copies the
// table into the object and needs no arena, deinit frees only the object,
// and run slices the flat input across every input tensor before the
// profiled inference.

module TflmLessModel {
  import opened Common
  import opened Profiling
  import opened RmfApi

  /** mtb_ml_model_bin_t for this back end: a name and the model's RMF API table. */
  datatype ModelBin = ModelBin(name: seq<char>, rmf: Rmf)

  /** Runs account NPU cycles separately on bare-metal NNLite2 builds. */
  predicate CountsNpu(p: Platform)
  {
    !p.rtos && p.nnlite2
  }

  /** The result init arrives at: argument check, object allocation, model_init. */
  function InitOutcome(bin: Option<ModelBin>, hasObject: bool, objBytes: nat, avail: int): (status: Status)
    ensures status in {Success, BadArg, AllocErr, BadModel}
  {
    if bin.None? || !hasObject then BadArg
    else if objBytes > avail then AllocErr
    else if !bin.value.rmf.initOk then BadModel
    else Success
  }

  /** mtb_ml_model_t in an interpreter-less TFLM build; `rmf` is the copied API table tflm_obj points at. */
  class Runtime {
    const self: nat
    var name: seq<char>
    var modelSize: int
    var bufferSize: int
    var inputSize: int
    var outputSize: int
    var libError: int
    var input: Ptr
    var output: Ptr
    var inputZeroPoint: int
    var inputScale: real
    var modelTimeSteps: int
    var outputZeroPoint: int
    var outputScale: real
    var profiling: ProfileConfig
    var mCpuCycles: u64
    var mSumFrames: u32
    var mNpuCycles: u64
    var cpu: Tally
    var npu: Tally
    var rmf: Option<Rmf>

    /** The object as calloc leaves it. */
    constructor(id: nat)
      ensures self == id && rmf.None?
      ensures name == [] && libError == 0 && profiling == ProfileDisable
      ensures mSumFrames == 0 && cpu == Cleared && npu == Cleared
    {
      self := id;
      name := [];
      modelSize := 0;
      bufferSize := 0;
      inputSize := 0;
      outputSize := 0;
      libError := 0;
      input := Null;
      output := Null;
      inputZeroPoint := 0;
      inputScale := 0.0;
      modelTimeSteps := 0;
      outputZeroPoint := 0;
      outputScale := 0.0;
      profiling := ProfileDisable;
      mCpuCycles := 0;
      mSumFrames := 0;
      mNpuCycles := 0;
      cpu := Cleared;
      npu := Cleared;
      rmf := None;
    }
  }

  /** The fields a successful init leaves in the runtime object. */
  ghost predicate Initialised(r: Runtime, b: ModelBin)
    reads r
  {
    r.name == b.name && r.rmf == Some(b.rmf)
    && r.modelSize == b.rmf.modelDataSize && r.bufferSize == b.rmf.modelBufferSize
    && r.input == b.rmf.inputPtr && r.inputSize == Product(b.rmf.inputDims)
    && r.inputZeroPoint == b.rmf.inputZeroPoint && r.inputScale == b.rmf.inputScale
    && r.modelTimeSteps == b.rmf.timeSteps
    && r.output == b.rmf.outputPtr && r.outputSize == Product(b.rmf.outputDims)
    && r.outputZeroPoint == b.rmf.outputZeroPoint && r.outputScale == b.rmf.outputScale
    && r.libError == 0 && r.profiling == ProfileDisable
    && r.mSumFrames == 0 && r.cpu == Cleared && r.npu == Cleared
  }

  /** Init's last step: copy tensor 0's parameters out of the API table. */
  method Fill(r: Runtime, rmf: Rmf)
    modifies r
    ensures r.name == old(r.name) && r.rmf == old(r.rmf)
    ensures r.modelSize == old(r.modelSize) && r.bufferSize == old(r.bufferSize)
    ensures r.libError == old(r.libError) && r.profiling == old(r.profiling)
    ensures r.mSumFrames == old(r.mSumFrames) && r.cpu == old(r.cpu) && r.npu == old(r.npu)
    ensures r.input == rmf.inputPtr && r.inputSize == Product(rmf.inputDims)
    ensures r.inputZeroPoint == rmf.inputZeroPoint && r.inputScale == rmf.inputScale
    ensures r.modelTimeSteps == rmf.timeSteps
    ensures r.output == rmf.outputPtr && r.outputSize == Product(rmf.outputDims)
    ensures r.outputZeroPoint == rmf.outputZeroPoint && r.outputScale == rmf.outputScale
  {
    r.input := rmf.inputPtr;
    r.inputSize := Elements(rmf.inputDims);
    r.inputZeroPoint := rmf.inputZeroPoint;
    r.inputScale := rmf.inputScale;
    r.modelTimeSteps := rmf.timeSteps;
    r.outputSize := Elements(rmf.outputDims);
    r.output := rmf.outputPtr;
    r.outputZeroPoint := rmf.outputZeroPoint;
    r.outputScale := rmf.outputScale;
  }

  /**
   * mtb_ml_model_init. The buffer argument is ignored, so it does not
   * appear. The only heap block is the object itself; a failing model_init
   * frees it and reports BAD_MODEL, leaving *object unwritten.
   */
  method Init(heap: Heap, bin: Option<ModelBin>, obj: Slot?<Runtime?>, objBytes: nat)
    returns (status: Status)
    requires heap.Valid()
    modifies heap, obj
    ensures heap.Valid()
    ensures status == InitOutcome(bin, obj != null, objBytes, old(heap.avail))
    ensures status == BadArg ==> unchanged(heap)
    ensures status != Success ==>
      heap.blocks == old(heap.blocks) && heap.avail == old(heap.avail)
      && (obj != null ==> obj.value == old(obj.value))
    ensures status == Success ==>
      obj != null && obj.value != null && fresh(obj.value)
      && obj.value.self !in old(heap.blocks)
      && heap.blocks == old(heap.blocks)[obj.value.self := objBytes]
      && heap.avail == old(heap.avail) - objBytes
      && Initialised(obj.value, bin.value)
  {
    if bin.None? || obj == null {
      return BadArg;
    }
    var block := heap.Alloc(objBytes);
    if block.Null? {
      return AllocErr;
    }
    var r := new Runtime(block.id);
    var b := bin.value;
    r.name := b.name;
    r.rmf := Some(b.rmf);
    r.modelSize := b.rmf.modelDataSize;
    r.bufferSize := b.rmf.modelBufferSize;
    if !b.rmf.initOk {
      heap.Free(block);
      return BadModel;
    }
    Fill(r, b.rmf);
    obj.value := r;
    status := Success;
  }

  /** mtb_ml_model_deinit: BAD_ARG on NULL, otherwise only the object's block is freed. */
  method Deinit(heap: Heap, obj: Runtime?) returns (status: Status)
    requires heap.Valid()
    requires obj != null ==> obj.self in heap.blocks
    modifies heap
    ensures obj == null ==> status == BadArg && unchanged(heap)
    ensures obj != null ==>
      status == Success && heap.Valid()
      && heap.blocks == old(heap.blocks) - {obj.self}
      && heap.avail == old(heap.avail) + old(heap.blocks)[obj.self]
  {
    if obj == null {
      return BadArg;
    }
    heap.Free(HeapBlock(obj.self));
    status := Success;
  }

  /** Bringing a model up and tearing it down leaves the heap as it found it. */
  method InitThenDeinit(heap: Heap, bin: Option<ModelBin>, objBytes: nat) returns (status: Status)
    requires heap.Valid()
    modifies heap
    ensures heap.Valid()
    ensures heap.blocks == old(heap.blocks) && heap.avail == old(heap.avail)
  {
    var obj := new Slot<Runtime?>(null);
    status := Init(heap, bin, obj, objBytes);
    if status == Success {
      var r := obj.value;
      var _ := Deinit(heap, r);
    }
  }

  /**
   * mtb_ml_model_run. `tensors` are the model's input tensors, filled in
   * order from the flat input. With the MODEL bit set the start time stamp
   * is taken first; a successful inference then advances the counters as
   * in the interpreter back end, the NPU domain only on bare-metal NNLite2
   * builds.
   */
  method Run(obj: Runtime?, input: array?<real>, tensors: seq<array<real>>, inv: Invocation, platform: Platform)
    returns (status: Status)
    requires input != null ==> Sum(Lengths(tensors)) <= input.Length
    requires forall i :: 0 <= i < |tensors| ==> tensors[i] != input
    requires forall i, j :: 0 <= i < j < |tensors| ==> tensors[i] != tensors[j]
    modifies (if obj == null then {} else {obj})`mCpuCycles,
      (if obj == null then {} else {obj})`libError,
      (if obj == null then {} else {obj})`mNpuCycles,
      (if obj == null then {} else {obj})`npu,
      (if obj == null then {} else {obj})`cpu,
      (if obj == null then {} else {obj})`mSumFrames,
      set t | t in tensors
    ensures obj == null || input == null ==>
      status == BadArg && (obj == null || unchanged(obj)) && forall t | t in tensors :: unchanged(t)
    ensures obj != null && input != null ==>
      (forall i :: 0 <= i < |tensors| ==> tensors[i][..] == Slices(old(input[..]), Lengths(tensors))[i])
      && obj.mCpuCycles == (if ProfilesModel(obj.profiling) then inv.start else old(obj.mCpuCycles))
      && obj.profiling == old(obj.profiling) && obj.rmf == old(obj.rmf)
      && obj.output == old(obj.output) && obj.outputSize == old(obj.outputSize)
    ensures obj != null && input != null && inv.result != 0 ==>
      status == InferenceError && obj.libError == inv.result
      && obj.cpu == old(obj.cpu) && obj.npu == old(obj.npu) && obj.mSumFrames == old(obj.mSumFrames)
      && obj.mNpuCycles == old(obj.mNpuCycles)
    ensures obj != null && input != null && inv.result == 0 ==> obj.libError == old(obj.libError)
    ensures obj != null && input != null && inv.result == 0 && !ProfilesModel(obj.profiling) ==>
      status == Success
      && obj.cpu == old(obj.cpu) && obj.npu == old(obj.npu) && obj.mSumFrames == old(obj.mSumFrames)
      && obj.mNpuCycles == old(obj.mNpuCycles)
    ensures obj != null && input != null && inv.result == 0 && ProfilesModel(obj.profiling)
            && !CycleCountOk(inv, CountsNpu(platform)) ==>
      status == CycleCountError
      && obj.cpu == old(obj.cpu) && obj.npu == old(obj.npu) && obj.mSumFrames == old(obj.mSumFrames)
      && obj.mNpuCycles == old(obj.mNpuCycles)
    ensures obj != null && input != null && inv.result == 0 && ProfilesModel(obj.profiling)
            && CycleCountOk(inv, CountsNpu(platform)) ==>
      status == Success
      && obj.cpu == Observe(old(obj.cpu), CpuShare(inv, CountsNpu(platform)), old(obj.mSumFrames))
      && obj.npu == (if CountsNpu(platform) then Observe(old(obj.npu), inv.npuCycles, old(obj.mSumFrames)) else old(obj.npu))
      && obj.mNpuCycles == (if CountsNpu(platform) then inv.npuCycles else old(obj.mNpuCycles))
      && obj.mSumFrames == Wrap32(old(obj.mSumFrames) + 1)
  {
    if obj == null || input == null {
      return BadArg;
    }
    SetInputs(tensors, input);
    if ProfilesModel(obj.profiling) {
      obj.mCpuCycles := inv.start;
    }
    if inv.result != 0 {
      obj.libError := inv.result;
      return InferenceError;
    }
    if ProfilesModel(obj.profiling) {
      var cpuCyclesOnly: int := Wrap64(inv.end - obj.mCpuCycles);
      if CountsNpu(platform) {
        var normNpuCycles := NormNpuCycles(inv);
        if normNpuCycles > cpuCyclesOnly {
          return CycleCountError;
        }
        obj.mNpuCycles := inv.npuCycles;
        obj.npu := Observe(obj.npu, obj.mNpuCycles, obj.mSumFrames);
        cpuCyclesOnly := cpuCyclesOnly - normNpuCycles;
      }
      obj.cpu := Observe(obj.cpu, cpuCyclesOnly, obj.mSumFrames);
      obj.mSumFrames := Wrap32(obj.mSumFrames + 1);
    }
    status := Success;
  }

  /**
   * mtb_ml_model_profile_config: store the configuration; any value other
   * than DISABLE clears the CPU counters and the frame counter; on a board
   * with an NPU the NPU counters are cleared whatever the value.
   */
  method ProfileConfig(obj: Runtime?, config: ProfileConfig, platform: Platform) returns (status: Status)
    modifies (if obj == null then {} else {obj})`profiling,
      (if obj == null then {} else {obj})`mSumFrames,
      (if obj == null then {} else {obj})`cpu,
      (if obj == null then {} else {obj})`npu
    ensures status == BadArg <==> obj == null
    ensures status == Success || status == BadArg
    ensures obj != null ==>
      obj.profiling == config
      && obj.mSumFrames == (if config != ProfileDisable then 0 else old(obj.mSumFrames))
      && obj.cpu == (if config != ProfileDisable then Cleared else old(obj.cpu))
      && obj.npu == (if HasNpu(platform) then Cleared else old(obj.npu))
      && obj.mCpuCycles == old(obj.mCpuCycles) && obj.mNpuCycles == old(obj.mNpuCycles)
      && obj.libError == old(obj.libError) && obj.rmf == old(obj.rmf)
  {
    if obj == null {
      return BadArg;
    }
    obj.profiling := config;
    if obj.profiling != ProfileDisable {
      obj.mSumFrames := 0;
      obj.cpu := Cleared;
    }
    if HasNpu(platform) {
      obj.npu := Cleared;
    }
    status := Success;
  }

  /**
   * A profiling session: enable model profiling, then run successfully once
   * per invocation. The tallies end up as the replay of the per-run counts
   * and the frame counter is the number of runs.
   */
  method ProfileSession(obj: Runtime, input: array<real>, tensors: seq<array<real>>, runs: seq<Invocation>, platform: Platform)
    requires Sum(Lengths(tensors)) <= input.Length && |runs| < Two32
    requires forall i :: 0 <= i < |tensors| ==> tensors[i] != input
    requires forall i, j :: 0 <= i < j < |tensors| ==> tensors[i] != tensors[j]
    requires forall i :: 0 <= i < |runs| ==> runs[i].result == 0 && CycleCountOk(runs[i], CountsNpu(platform))
    modifies obj, set t | t in tensors
    ensures obj.cpu == Replay(CpuShares(runs, CountsNpu(platform)))
    ensures CountsNpu(platform) ==> obj.npu == Replay(NpuCounts(runs))
    ensures obj.mSumFrames == |runs|
  {
    var _ := ProfileConfig(obj, ProfileEnableModel, platform);
    ghost var cpuShares := CpuShares(runs, CountsNpu(platform));
    ghost var npuCounts := NpuCounts(runs);
    var i := 0;
    while i < |runs|
      invariant 0 <= i <= |runs|
      invariant obj.profiling == ProfileEnableModel
      invariant obj.mSumFrames == i
      invariant obj.cpu == Replay(cpuShares[..i])
      invariant CountsNpu(platform) ==> obj.npu == Replay(npuCounts[..i])
    {
      var _ := Run(obj, input, tensors, runs[i], platform);
      ReplayStep(cpuShares, i);
      ReplayStep(npuCounts, i);
      i := i + 1;
    }
    assert cpuShares[..i] == cpuShares;
    assert npuCounts[..i] == npuCounts;
  }

  /** mtb_ml_model_get_output: writes each out-parameter that is not NULL. */
  method GetOutput(obj: Runtime?, outputPtr: Slot?<Ptr>, sizePtr: Slot?<int>) returns (status: Status)
    modifies outputPtr, sizePtr
    ensures status == BadArg <==> obj == null
    ensures status == Success || status == BadArg
    ensures obj == null ==> (outputPtr == null || unchanged(outputPtr)) && (sizePtr == null || unchanged(sizePtr))
    ensures obj != null && outputPtr != null ==> outputPtr.value == obj.output
    ensures obj != null && sizePtr != null ==> sizePtr.value == obj.outputSize
  {
    if obj == null {
      return BadArg;
    }
    if outputPtr != null {
      outputPtr.value := obj.output;
    }
    if sizePtr != null {
      sizePtr.value := obj.outputSize;
    }
    status := Success;
  }

  /** mtb_ml_model_get_input_size: reads the field with no NULL check, so the object must exist. */
  function GetInputSize(obj: Runtime): (n: int)
    reads obj
    ensures n == obj.inputSize
  {
    obj.inputSize
  }

  /** mtb_ml_model_rnn_reset_all_parameters: BAD_ARG on NULL or when model_reset fails; lib_error is not touched. */
  method RnnResetAllParameters(obj: Runtime?, resetResult: int) returns (status: Status)
    ensures status == Success <==> obj != null && resetResult == 0
    ensures status == Success || status == BadArg
  {
    if obj == null {
      return BadArg;
    }
    if resetResult != 0 {
      return BadArg;
    }
    status := Success;
  }
}
