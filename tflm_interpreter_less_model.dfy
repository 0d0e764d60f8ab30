// The runtime object of the older interpreter-less TensorFlow Lite Micro
// back end: the same API-table lifecycle and input slicing as the newer
// one, with the 32-bit cycle counters of the older interpreter back end and
// stub RNN and Q-format entry points.

module TflmInterpreterLessModel {
  import opened Common
  import opened Profiling
  import opened RmfApi
  import TflmLessModel

  /** The result init arrives at: argument check, object allocation, model_init. */
  function InitOutcome(bin: Option<TflmLessModel.ModelBin>, hasObject: bool, objBytes: nat, avail: int): (status: Status)
    ensures status in {Success, BadArg, AllocErr, BadModel}
  {
    if bin.None? || !hasObject then BadArg
    else if objBytes > avail then AllocErr
    else if !bin.value.rmf.initOk then BadModel
    else Success
  }

  /** mtb_ml_model_t in this build; `rmf` is the copied API table tflm_obj points at. */
  class Runtime {
    const self: nat
    var name: seq<char>
    var modelSize: int
    var bufferSize: int
    var inputSize: int
    var outputSize: int
    var libError: int
    var input: Ptr
    var output: Ptr
    var inputZeroPoint: int
    var inputScale: real
    var outputZeroPoint: int
    var outputScale: real
    var profiling: ProfileConfig
    /** m_cycles: the start stamp during a run, the run's delta afterwards. */
    var mCycles: u32
    var mSumFrames: u32
    /** m_sum_cycles, m_peak_cycles and m_peak_frame. */
    var tally: Tally
    var rmf: Option<Rmf>

    /** The object as calloc leaves it. */
    constructor(id: nat)
      ensures self == id && rmf.None?
      ensures name == [] && libError == 0 && profiling == ProfileDisable
      ensures mCycles == 0 && mSumFrames == 0 && tally == Cleared
    {
      self := id;
      name := [];
      modelSize := 0;
      bufferSize := 0;
      inputSize := 0;
      outputSize := 0;
      libError := 0;
      input := Null;
      output := Null;
      inputZeroPoint := 0;
      inputScale := 0.0;
      outputZeroPoint := 0;
      outputScale := 0.0;
      profiling := ProfileDisable;
      mCycles := 0;
      mSumFrames := 0;
      tally := Cleared;
      rmf := None;
    }
  }

  /** The fields a successful init leaves in the runtime object. */
  ghost predicate Initialised(r: Runtime, b: TflmLessModel.ModelBin)
    reads r
  {
    r.name == b.name && r.rmf == Some(b.rmf)
    && r.modelSize == b.rmf.modelDataSize && r.bufferSize == b.rmf.modelBufferSize
    && r.input == b.rmf.inputPtr && r.inputSize == Product(b.rmf.inputDims)
    && r.inputZeroPoint == b.rmf.inputZeroPoint && r.inputScale == b.rmf.inputScale
    && r.output == b.rmf.outputPtr && r.outputSize == Product(b.rmf.outputDims)
    && r.outputZeroPoint == b.rmf.outputZeroPoint && r.outputScale == b.rmf.outputScale
    && r.libError == 0 && r.profiling == ProfileDisable
    && r.mSumFrames == 0 && r.tally == Cleared
  }

  /** Init's last step: copy tensor 0's parameters out of the API table. */
  method Fill(r: Runtime, rmf: Rmf)
    modifies r
    ensures r.name == old(r.name) && r.rmf == old(r.rmf)
    ensures r.modelSize == old(r.modelSize) && r.bufferSize == old(r.bufferSize)
    ensures r.libError == old(r.libError) && r.profiling == old(r.profiling)
    ensures r.mSumFrames == old(r.mSumFrames) && r.tally == old(r.tally)
    ensures r.input == rmf.inputPtr && r.inputSize == Product(rmf.inputDims)
    ensures r.inputZeroPoint == rmf.inputZeroPoint && r.inputScale == rmf.inputScale
    ensures r.output == rmf.outputPtr && r.outputSize == Product(rmf.outputDims)
    ensures r.outputZeroPoint == rmf.outputZeroPoint && r.outputScale == rmf.outputScale
  {
    r.input := rmf.inputPtr;
    r.inputSize := Elements(rmf.inputDims);
    r.inputZeroPoint := rmf.inputZeroPoint;
    r.inputScale := rmf.inputScale;
    r.outputSize := Elements(rmf.outputDims);
    r.output := rmf.outputPtr;
    r.outputZeroPoint := rmf.outputZeroPoint;
    r.outputScale := rmf.outputScale;
  }

  /**
   * mtb_ml_model_init. The buffer argument is ignored, so it does not
   * appear. A failing model_init frees the object and reports BAD_MODEL,
   * leaving *object unwritten.
   */
  method Init(heap: Heap, bin: Option<TflmLessModel.ModelBin>, obj: Slot?<Runtime?>, objBytes: nat)
    returns (status: Status)
    requires heap.Valid()
    modifies heap, obj
    ensures heap.Valid()
    ensures status == InitOutcome(bin, obj != null, objBytes, old(heap.avail))
    ensures status == BadArg ==> unchanged(heap)
    ensures status != Success ==>
      heap.blocks == old(heap.blocks) && heap.avail == old(heap.avail)
      && (obj != null ==> obj.value == old(obj.value))
    ensures status == Success ==>
      obj != null && obj.value != null && fresh(obj.value)
      && obj.value.self !in old(heap.blocks)
      && heap.blocks == old(heap.blocks)[obj.value.self := objBytes]
      && heap.avail == old(heap.avail) - objBytes
      && Initialised(obj.value, bin.value)
  {
    if bin.None? || obj == null {
      return BadArg;
    }
    var block := heap.Alloc(objBytes);
    if block.Null? {
      return AllocErr;
    }
    var r := new Runtime(block.id);
    var b := bin.value;
    r.name := b.name;
    r.rmf := Some(b.rmf);
    r.modelSize := b.rmf.modelDataSize;
    r.bufferSize := b.rmf.modelBufferSize;
    if !b.rmf.initOk {
      heap.Free(block);
      return BadModel;
    }
    Fill(r, b.rmf);
    obj.value := r;
    status := Success;
  }

  /** mtb_ml_model_deinit: BAD_ARG on NULL, otherwise only the object's block is freed. */
  method Deinit(heap: Heap, obj: Runtime?) returns (status: Status)
    requires heap.Valid()
    requires obj != null ==> obj.self in heap.blocks
    modifies heap
    ensures obj == null ==> status == BadArg && unchanged(heap)
    ensures obj != null ==>
      status == Success && heap.Valid()
      && heap.blocks == old(heap.blocks) - {obj.self}
      && heap.avail == old(heap.avail) + old(heap.blocks)[obj.self]
  {
    if obj == null {
      return BadArg;
    }
    heap.Free(HeapBlock(obj.self));
    status := Success;
  }

  /** Bringing a model up and tearing it down leaves the heap as it found it. */
  method InitThenDeinit(heap: Heap, bin: Option<TflmLessModel.ModelBin>, objBytes: nat) returns (status: Status)
    requires heap.Valid()
    modifies heap
    ensures heap.Valid()
    ensures heap.blocks == old(heap.blocks) && heap.avail == old(heap.avail)
  {
    var obj := new Slot<Runtime?>(null);
    status := Init(heap, bin, obj, objBytes);
    if status == Success {
      var r := obj.value;
      var _ := Deinit(heap, r);
    }
  }

  /**
   * mtb_ml_model_run: slice the flat input across the input tensors, then
   * run with 32-bit profiling as in the older interpreter back end.
   */
  method Run(obj: Runtime?, input: array?<real>, tensors: seq<array<real>>, inv: Invocation32)
    returns (status: Status)
    requires input != null ==> Sum(Lengths(tensors)) <= input.Length
    requires forall i :: 0 <= i < |tensors| ==> tensors[i] != input
    requires forall i, j :: 0 <= i < j < |tensors| ==> tensors[i] != tensors[j]
    modifies (if obj == null then {} else {obj})`mCycles,
      (if obj == null then {} else {obj})`libError,
      (if obj == null then {} else {obj})`tally,
      (if obj == null then {} else {obj})`mSumFrames,
      set t | t in tensors
    ensures obj == null || input == null ==>
      status == BadArg && (obj == null || unchanged(obj)) && forall t | t in tensors :: unchanged(t)
    ensures obj != null && input != null ==>
      (forall i :: 0 <= i < |tensors| ==> tensors[i][..] == Slices(old(input[..]), Lengths(tensors))[i])
      && obj.profiling == old(obj.profiling) && obj.rmf == old(obj.rmf)
      && obj.output == old(obj.output) && obj.outputSize == old(obj.outputSize)
    ensures obj != null && input != null && inv.result != 0 ==>
      status == InferenceError && obj.libError == inv.result
      && obj.mCycles == (if ProfilesModel(obj.profiling) then inv.start else old(obj.mCycles))
      && obj.tally == old(obj.tally) && obj.mSumFrames == old(obj.mSumFrames)
    ensures obj != null && input != null && inv.result == 0 ==>
      status == Success && obj.libError == old(obj.libError)
    ensures obj != null && input != null && inv.result == 0 && !ProfilesModel(obj.profiling) ==>
      obj.mCycles == old(obj.mCycles) && obj.tally == old(obj.tally) && obj.mSumFrames == old(obj.mSumFrames)
    ensures obj != null && input != null && inv.result == 0 && ProfilesModel(obj.profiling) ==>
      obj.mCycles == Elapsed32(inv)
      && obj.tally == Observe(old(obj.tally), Elapsed32(inv), old(obj.mSumFrames))
      && obj.mSumFrames == Wrap32(old(obj.mSumFrames) + 1)
  {
    if obj == null || input == null {
      return BadArg;
    }
    SetInputs(tensors, input);
    if ProfilesModel(obj.profiling) {
      obj.mCycles := inv.start;
    }
    if inv.result != 0 {
      obj.libError := inv.result;
      return InferenceError;
    }
    if ProfilesModel(obj.profiling) {
      var cycles := inv.end;
      obj.mCycles := Wrap32(cycles - obj.mCycles);
      obj.tally := Observe(obj.tally, obj.mCycles, obj.mSumFrames);
      obj.mSumFrames := Wrap32(obj.mSumFrames + 1);
    }
    status := Success;
  }

  /** mtb_ml_model_profile_config: store the configuration; any value other than DISABLE clears the counters. */
  method ProfileConfig(obj: Runtime?, config: ProfileConfig) returns (status: Status)
    modifies (if obj == null then {} else {obj})`profiling,
      (if obj == null then {} else {obj})`mSumFrames,
      (if obj == null then {} else {obj})`tally
    ensures status == BadArg <==> obj == null
    ensures status == Success || status == BadArg
    ensures obj != null ==>
      obj.profiling == config
      && obj.mSumFrames == (if config != ProfileDisable then 0 else old(obj.mSumFrames))
      && obj.tally == (if config != ProfileDisable then Cleared else old(obj.tally))
      && obj.mCycles == old(obj.mCycles) && obj.libError == old(obj.libError) && obj.rmf == old(obj.rmf)
  {
    if obj == null {
      return BadArg;
    }
    obj.profiling := config;
    if obj.profiling != ProfileDisable {
      obj.mSumFrames := 0;
      obj.tally := Cleared;
    }
    status := Success;
  }

  /**
   * A profiling session: enable model profiling, then run successfully once
   * per invocation. The tally is the replay of the 32-bit deltas and the
   * frame counter is the number of runs.
   */
  method ProfileSession(obj: Runtime, input: array<real>, tensors: seq<array<real>>, runs: seq<Invocation32>)
    requires Sum(Lengths(tensors)) <= input.Length && |runs| < Two32
    requires forall i :: 0 <= i < |tensors| ==> tensors[i] != input
    requires forall i, j :: 0 <= i < j < |tensors| ==> tensors[i] != tensors[j]
    requires forall i :: 0 <= i < |runs| ==> runs[i].result == 0
    modifies obj, set t | t in tensors
    ensures obj.tally == Replay(Elapsed32s(runs))
    ensures obj.mSumFrames == |runs|
  {
    var _ := ProfileConfig(obj, ProfileEnableModel);
    ghost var deltas := Elapsed32s(runs);
    var i := 0;
    while i < |runs|
      invariant 0 <= i <= |runs|
      invariant obj.profiling == ProfileEnableModel
      invariant obj.mSumFrames == i
      invariant obj.tally == Replay(deltas[..i])
    {
      var _ := Run(obj, input, tensors, runs[i]);
      ReplayStep(deltas, i);
      i := i + 1;
    }
    assert deltas[..i] == deltas;
  }

  /** mtb_ml_model_get_output: writes each out-parameter that is not NULL. */
  method GetOutput(obj: Runtime?, outputPtr: Slot?<Ptr>, sizePtr: Slot?<int>) returns (status: Status)
    modifies outputPtr, sizePtr
    ensures status == BadArg <==> obj == null
    ensures status == Success || status == BadArg
    ensures obj == null ==> (outputPtr == null || unchanged(outputPtr)) && (sizePtr == null || unchanged(sizePtr))
    ensures obj != null && outputPtr != null ==> outputPtr.value == obj.output
    ensures obj != null && sizePtr != null ==> sizePtr.value == obj.outputSize
  {
    if obj == null {
      return BadArg;
    }
    if outputPtr != null {
      outputPtr.value := obj.output;
    }
    if sizePtr != null {
      sizePtr.value := obj.outputSize;
    }
    status := Success;
  }

  /** mtb_ml_model_get_input_size: reads the field with no NULL check, so the object must exist. */
  function GetInputSize(obj: Runtime): (n: int)
    reads obj
    ensures n == obj.inputSize
  {
    obj.inputSize
  }

  // ---------------------------------------------------------------------
  // Stubs: this back end has no recurrent state and no Q-format data.

  /** mtb_ml_model_get_recurrent_time_series_frames: 0 for any object. */
  function GetRecurrentTimeSeriesFrames(obj: Runtime?): (frames: int)
    ensures frames == 0
  {
    0
  }

  /** mtb_ml_model_rnn_state_control: succeeds for any arguments and changes nothing. */
  function RnnStateControl(obj: Runtime?, status: int, winSize: int): (result: Status)
    ensures result == Success
  {
    Success
  }

  /** mtb_ml_model_set_input_q_fraction_bits: succeeds and records nothing. */
  function SetInputQFractionBits(obj: Runtime?, bits: u8): (result: Status)
    ensures result == Success
  {
    Success
  }

  /** mtb_ml_model_get_output_q_fraction_bits: 0 for any object. */
  function GetOutputQFractionBits(obj: Runtime?): (bits: u8)
    ensures bits == 0
  {
    0
  }
}
