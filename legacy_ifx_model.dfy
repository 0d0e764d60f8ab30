// The runtime object of the fixed-point engine in the earlier library
// release. It owns no output buffer (run writes into a caller array), keeps
// the engine's error in `mlError`, and passes the profiling configuration to
// the engine unconverted. The buffer choice, the flags, the rollback path
// and deinit follow the same rules as the current release.

module LegacyIfxModel {
  import opened Common
  import opened IfxModel

  // ---------------------------------------------------------------------
  // memory_area.

  /** A memory region of the device: its base address and its size in bytes. */
  datatype Region = Region(base: u32, size: u32)

  /** The device's SRAM, flash and emulated-EEPROM regions. */
  datatype MemoryMap = MemoryMap(sram: Region, flash: Region, eeprom: Region)

  /** MEM_RANGE: base <= addr && addr < base + size, with the sum taken in 32 bits. */
  predicate InRange(addr: u32, r: Region)
  {
    r.base <= addr && addr < Wrap32(r.base + r.size)
  }

  /** memory_area: the first of RAM, FLASH, EEPROM whose range holds the address, else "unknown". */
  function MemoryArea(addr: u32, m: MemoryMap): (area: string)
    ensures area == "RAM" <==> InRange(addr, m.sram)
    ensures area == "FLASH" <==> !InRange(addr, m.sram) && InRange(addr, m.flash)
    ensures area == "EEPROM" <==> !InRange(addr, m.sram) && !InRange(addr, m.flash) && InRange(addr, m.eeprom)
    ensures area == "unknown" <==> !InRange(addr, m.sram) && !InRange(addr, m.flash) && !InRange(addr, m.eeprom)
  {
    if InRange(addr, m.sram) then "RAM"
    else if InRange(addr, m.flash) then "FLASH"
    else if InRange(addr, m.eeprom) then "EEPROM"
    else "unknown"
  }

  /** A region that does not reach the end of the address space holds exactly [base, base + size). */
  lemma InRangeHalfOpen(addr: u32, r: Region)
    requires r.base + r.size < Two32
    ensures InRange(addr, r) <==> r.base <= addr < r.base + r.size
  {
  }

  /**
   * With regions that do not overlap and do not reach the end of the address
   * space, an address inside one of them is classified by that region.
   */
  lemma MemoryAreaFindsRegion(addr: u32, m: MemoryMap)
    requires m.sram.base + m.sram.size < Two32 && m.flash.base + m.flash.size < Two32
    requires m.eeprom.base + m.eeprom.size < Two32
    requires m.sram.base + m.sram.size <= m.flash.base || m.flash.base + m.flash.size <= m.sram.base
    requires m.sram.base + m.sram.size <= m.eeprom.base || m.eeprom.base + m.eeprom.size <= m.sram.base
    requires m.flash.base + m.flash.size <= m.eeprom.base || m.eeprom.base + m.eeprom.size <= m.flash.base
    ensures m.flash.base <= addr < m.flash.base + m.flash.size ==> MemoryArea(addr, m) == "FLASH"
    ensures m.eeprom.base <= addr < m.eeprom.base + m.eeprom.size ==> MemoryArea(addr, m) == "EEPROM"
    ensures m.sram.base <= addr < m.sram.base + m.sram.size ==> MemoryArea(addr, m) == "RAM"
  {
    InRangeHalfOpen(addr, m.sram);
    InRangeHalfOpen(addr, m.flash);
    InRangeHalfOpen(addr, m.eeprom);
  }

  /** A region ending exactly at the top of the address space classifies no address: its end wraps to 0. */
  lemma TopRegionIsEmpty(addr: u32, r: Region)
    requires r.base + r.size == Two32
    ensures !InRange(addr, r)
  {
  }

  // ---------------------------------------------------------------------
  // The runtime object.

  /** The heap requests init makes after the runtime object itself, in order; malloc takes each as a size_t. */
  function LegacyRequests(info: ModelInfo, buffer: Option<ModelBuffer>): seq<int>
  {
    (if AllocatesPersistent(buffer) then [Wrap32(info.persistentMem)] else [])
    + (if AllocatesScratch(buffer) then [Wrap32(info.scratchMem)] else [])
  }

  /** mtb_ml_model_t of the earlier release. `self` is the heap block holding the object. */
  class Runtime {
    const self: nat
    var pMem: Ptr
    var sMem: Ptr
    var inferenceObj: Ptr
    var mlError: int
    var inputQn: int
    var outputQn: int
    var flags: bv32
    var modelInfo: ModelInfo

    /** The object as calloc leaves it. */
    constructor(id: nat)
      ensures self == id
      ensures pMem == Null && sMem == Null && inferenceObj == Null
      ensures mlError == 0 && inputQn == 0 && outputQn == 0 && flags == 0
      ensures modelInfo == ModelInfo(0, 0, 0, 0, 0)
    {
      self := id;
      pMem := Null;
      sMem := Null;
      inferenceObj := Null;
      mlError := 0;
      inputQn := 0;
      outputQn := 0;
      flags := 0;
      modelInfo := ModelInfo(0, 0, 0, 0, 0);
    }

    predicate OwnsPersistent()
      reads this
    {
      flags & MemDynamicPersistent != 0
    }

    predicate OwnsScratch()
      reads this
    {
      flags & MemDynamicScratch != 0
    }

    /** The heap blocks the rollback path and deinit give back. */
    function Owned(): set<nat>
      reads this
    {
      {self}
      + (if OwnsPersistent() && pMem.HeapBlock? then {pMem.id} else {})
      + (if OwnsScratch() && sMem.HeapBlock? then {sMem.id} else {})
    }

    /** The blocks the object owns are live and distinct. */
    ghost predicate Consistent(heap: Heap)
      reads this, heap
    {
      heap.Valid() && self in heap.blocks
      && (OwnsPersistent() ==> pMem.HeapBlock? && pMem.id in heap.blocks && pMem.id != self)
      && (OwnsScratch() ==>
            sMem.HeapBlock? && sMem.id in heap.blocks && sMem.id != self
            && (OwnsPersistent() ==> sMem.id != pMem.id))
    }

    /** The memory the owned blocks take together. */
    function Footprint(heap: Heap): int
      reads this, heap
      requires Consistent(heap)
    {
      heap.blocks[self]
      + (if OwnsPersistent() then heap.blocks[pMem.id] else 0)
      + (if OwnsScratch() then heap.blocks[sMem.id] else 0)
    }

    /** Since the heap stood at `blocks0` and `avail0`, it has gained exactly the object's blocks. */
    ghost predicate Tracks(heap: Heap, blocks0: map<nat, nat>, avail0: int)
      reads this, heap
    {
      Consistent(heap) && heap.blocks - Owned() == blocks0 && Owned() !! blocks0.Keys
      && heap.avail + Footprint(heap) == avail0
    }

    /** The release sequence shared by init's RET_ERR path and deinit. */
    method Release(heap: Heap)
      requires Consistent(heap)
      modifies this`pMem, this`sMem, heap
      ensures heap.Valid()
      ensures heap.blocks == old(heap.blocks) - old(Owned())
      ensures heap.avail == old(heap.avail) + old(Footprint(heap))
      ensures old(OwnsPersistent()) ==> pMem == Null
      ensures old(OwnsScratch()) ==> sMem == Null
    {
      if !pMem.Null? && OwnsPersistent() {
        heap.Free(pMem);
        pMem := Null;
      }
      if !sMem.Null? && OwnsScratch() {
        heap.Free(sMem);
        sMem := Null;
      }
      heap.Free(HeapBlock(self));
      assert heap.blocks == old(heap.blocks) - old(Owned());
    }

    /** Init's persistent-buffer step: allocate and flag one when the caller gives none, else borrow. */
    method TakePersistent(heap: Heap, buffer: Option<ModelBuffer>, size: int, ghost blocks0: map<nat, nat>, ghost avail0: int)
      returns (ok: bool)
      requires Tracks(heap, blocks0, avail0) && !OwnsPersistent()
      modifies heap, this`pMem, this`flags
      ensures Tracks(heap, blocks0, avail0)
      ensures ok <==> !AllocatesPersistent(buffer) || 0 <= size <= old(heap.avail)
      ensures heap.avail == old(heap.avail) - (if ok && AllocatesPersistent(buffer) then size else 0)
      ensures OwnsScratch() == old(OwnsScratch())
      ensures ok ==> (OwnsPersistent() <==> AllocatesPersistent(buffer))
      ensures ok && !AllocatesPersistent(buffer) ==> pMem == buffer.value.persistent
    {
      if AllocatesPersistent(buffer) {
        var p := heap.Alloc(size);
        if p.Null? {
          return false;
        }
        pMem := p;
        flags := flags | MemDynamicPersistent;
      } else {
        pMem := buffer.value.persistent;
      }
      ok := true;
    }

    /** Init's scratch-buffer step: allocate and flag one when the caller gives none, else borrow. */
    method TakeScratch(heap: Heap, buffer: Option<ModelBuffer>, size: int, ghost blocks0: map<nat, nat>, ghost avail0: int)
      returns (ok: bool)
      requires Tracks(heap, blocks0, avail0) && !OwnsScratch()
      modifies heap, this`sMem, this`flags
      ensures Tracks(heap, blocks0, avail0)
      ensures ok <==> !AllocatesScratch(buffer) || 0 <= size <= old(heap.avail)
      ensures heap.avail == old(heap.avail) - (if ok && AllocatesScratch(buffer) then size else 0)
      ensures OwnsPersistent() == old(OwnsPersistent())
      ensures ok ==> (OwnsScratch() <==> AllocatesScratch(buffer))
      ensures ok && !AllocatesScratch(buffer) ==> sMem == buffer.value.scratch
    {
      if AllocatesScratch(buffer) {
        var p := heap.Alloc(size);
        if p.Null? {
          return false;
        }
        sMem := p;
        flags := flags | MemDynamicScratch;
      } else {
        sMem := buffer.value.scratch;
      }
      ok := true;
    }

    /**
     * Init's two buffer steps in turn: they succeed exactly when the
     * requests fit one after another, and the object then owns what was
     * allocated and borrows what was given.
     */
    method TakeBuffers(heap: Heap, buffer: Option<ModelBuffer>, ghost blocks0: map<nat, nat>, ghost avail0: int)
      returns (ok: bool)
      requires Tracks(heap, blocks0, avail0) && flags == 0
      modifies heap, this`pMem, this`sMem, this`flags
      ensures Tracks(heap, blocks0, avail0)
      ensures ok <==> AllFit(LegacyRequests(modelInfo, buffer), old(heap.avail))
      ensures ok ==>
        Footprint(heap) == old(Footprint(heap)) + Total(LegacyRequests(modelInfo, buffer))
        && (OwnsPersistent() <==> AllocatesPersistent(buffer))
        && (!AllocatesPersistent(buffer) ==> pMem == buffer.value.persistent)
        && (OwnsScratch() <==> AllocatesScratch(buffer))
        && (!AllocatesScratch(buffer) ==> sMem == buffer.value.scratch)
    {
      LegacyRequestsFit(modelInfo, buffer, heap.avail);
      ok := TakePersistent(heap, buffer, Wrap32(modelInfo.persistentMem), blocks0, avail0);
      if ok {
        ok := TakeScratch(heap, buffer, Wrap32(modelInfo.scratchMem), blocks0, avail0);
      }
    }
  }

  /** The requests fit one after another exactly when each fits in what the earlier one left. */
  lemma LegacyRequestsFit(info: ModelInfo, buffer: Option<ModelBuffer>, avail: int)
    ensures
      var p := if AllocatesPersistent(buffer) then Wrap32(info.persistentMem) else 0;
      var s := if AllocatesScratch(buffer) then Wrap32(info.scratchMem) else 0;
      (AllFit(LegacyRequests(info, buffer), avail) <==>
        (AllocatesPersistent(buffer) ==> 0 <= p <= avail)
        && (AllocatesScratch(buffer) ==> 0 <= s <= avail - p))
      && Total(LegacyRequests(info, buffer)) == p + s
  {
    var p := if AllocatesPersistent(buffer) then Wrap32(info.persistentMem) else 0;
    var tail: seq<int> := if AllocatesScratch(buffer) then [Wrap32(info.scratchMem)] else [];
    if AllocatesScratch(buffer) {
      FitCons(Wrap32(info.scratchMem), [], avail - p);
      assert tail == [Wrap32(info.scratchMem)] + [];
    }
    if AllocatesPersistent(buffer) {
      FitCons(Wrap32(info.persistentMem), tail, avail);
    }
    assert LegacyRequests(info, buffer) == (if AllocatesPersistent(buffer) then [Wrap32(info.persistentMem)] else []) + tail;
  }

  // ---------------------------------------------------------------------
  // Lifecycle.

  /** The result init arrives at: argument check, object allocation, parse, buffers in order, engine. */
  function LegacyInitOutcome(bin: Option<ModelBin>, hasObject: bool, buffer: Option<ModelBuffer>,
                             engine: EngineInit, objBytes: nat, avail: int): (status: Status)
    ensures status in {Success, BadArg, AllocErr, BadModel}
  {
    if !ArgsOk(bin, hasObject) then BadArg
    else if objBytes > avail then AllocErr
    else if engine.parsed.None? then BadModel
    else if !AllFit(LegacyRequests(engine.parsed.value, buffer), avail - objBytes) then AllocErr
    else if engine.initAccepts then Success
    else BadModel
  }

  /**
   * mtb_ml_model_init of the earlier release. Every failure leaves the heap
   * and *object as they were; success writes *object and leaves exactly the
   * object's owned blocks added to the heap.
   */
  method Init(heap: Heap, bin: Option<ModelBin>, buffer: Option<ModelBuffer>, obj: Slot?<Runtime?>,
              engine: EngineInit, objBytes: nat)
    returns (status: Status)
    requires heap.Valid()
    modifies heap, obj
    ensures heap.Valid()
    ensures status == LegacyInitOutcome(bin, obj != null, buffer, engine, objBytes, old(heap.avail))
    ensures status == BadArg ==> unchanged(heap)
    ensures status != Success ==>
      heap.blocks == old(heap.blocks) && heap.avail == old(heap.avail)
      && (obj != null ==> obj.value == old(obj.value))
    ensures status == Success ==>
      obj != null && obj.value != null && fresh(obj.value)
      && obj.value.Consistent(heap)
      && heap.blocks - obj.value.Owned() == old(heap.blocks)
      && obj.value.Owned() !! old(heap.blocks).Keys
      && obj.value.Footprint(heap) == objBytes + Total(LegacyRequests(engine.parsed.value, buffer))
      && heap.avail == old(heap.avail) - obj.value.Footprint(heap)
    ensures status == Success ==>
      var r := obj.value;
      r.modelInfo == engine.parsed.value
      && (r.OwnsPersistent() <==> AllocatesPersistent(buffer))
      && (!AllocatesPersistent(buffer) ==> r.pMem == buffer.value.persistent)
      && (r.OwnsScratch() <==> AllocatesScratch(buffer))
      && (!AllocatesScratch(buffer) ==> r.sMem == buffer.value.scratch)
      && r.inferenceObj == engine.handle
      && r.mlError == 0 && r.inputQn == 0 && r.outputQn == 0
  {
    if !ArgsOk(bin, obj != null) {
      return BadArg;
    }
    var block := heap.Alloc(objBytes);
    if block.Null? {
      return AllocErr;
    }
    var r := new Runtime(block.id);
    ghost var blocks0 := old(heap.blocks);
    ghost var avail0 := old(heap.avail);
    assert r.Tracks(heap, blocks0, avail0);
    if engine.parsed.None? {
      r.Release(heap);
      return BadModel;
    }
    status := Finish(heap, r, engine, buffer, obj, blocks0, avail0);
  }

  /** The buffer steps and the engine's initialisation of mtb_ml_model_init, with RET_ERR on failure. */
  method Finish(heap: Heap, r: Runtime, engine: EngineInit, buffer: Option<ModelBuffer>, obj: Slot<Runtime?>,
                ghost blocks0: map<nat, nat>, ghost avail0: int)
    returns (status: Status)
    requires engine.parsed.Some?
    requires r.Tracks(heap, blocks0, avail0) && r.flags == 0
    requires r.mlError == 0 && r.inputQn == 0 && r.outputQn == 0
    modifies heap, r, obj
    ensures heap.Valid()
    ensures status ==
      (if !AllFit(LegacyRequests(engine.parsed.value, buffer), old(heap.avail)) then AllocErr
       else if engine.initAccepts then Success
       else BadModel)
    ensures status != Success ==>
      heap.blocks == blocks0 && heap.avail == avail0 && obj.value == old(obj.value)
    ensures status == Success ==>
      obj.value == r && r.Tracks(heap, blocks0, avail0)
      && r.Footprint(heap) == old(r.Footprint(heap)) + Total(LegacyRequests(engine.parsed.value, buffer))
      && r.modelInfo == engine.parsed.value
      && (r.OwnsPersistent() <==> AllocatesPersistent(buffer))
      && (!AllocatesPersistent(buffer) ==> r.pMem == buffer.value.persistent)
      && (r.OwnsScratch() <==> AllocatesScratch(buffer))
      && (!AllocatesScratch(buffer) ==> r.sMem == buffer.value.scratch)
      && r.inferenceObj == engine.handle
      && r.mlError == 0 && r.inputQn == 0 && r.outputQn == 0
  {
    r.modelInfo := engine.parsed.value;
    var ok := r.TakeBuffers(heap, buffer, blocks0, avail0);
    if !ok {
      r.Release(heap);
      return AllocErr;
    }
    if engine.initAccepts {
      r.inferenceObj := engine.handle;
      obj.value := r;
      return Success;
    }
    r.Release(heap);
    status := BadModel;
  }

  /** mtb_ml_model_deinit of the earlier release: the flagged buffers and the object go back, nothing else. */
  method Deinit(heap: Heap, obj: Runtime?) returns (status: Status)
    requires obj != null ==> obj.Consistent(heap)
    modifies heap, obj
    ensures obj == null ==> status == BadArg && unchanged(heap)
    ensures obj != null ==>
      status == Success && heap.Valid()
      && heap.blocks == old(heap.blocks) - old(obj.Owned())
      && heap.avail == old(heap.avail) + old(obj.Footprint(heap))
  {
    if obj == null {
      return BadArg;
    }
    obj.Release(heap);
    status := Success;
  }

  /** Bringing a model up and tearing it down leaves the heap as it found it. */
  method InitThenDeinit(heap: Heap, bin: Option<ModelBin>, buffer: Option<ModelBuffer>,
                        engine: EngineInit, objBytes: nat)
    returns (status: Status)
    requires heap.Valid()
    modifies heap
    ensures heap.Valid()
    ensures heap.blocks == old(heap.blocks) && heap.avail == old(heap.avail)
  {
    var obj := new Slot<Runtime?>(null);
    status := Init(heap, bin, buffer, obj, engine, objBytes);
    if status == Success {
      var r := obj.value;
      var _ := Deinit(heap, r);
    }
  }

  // ---------------------------------------------------------------------
  // Inference and accessors.

  /**
   * mtb_ml_model_run of the earlier release: the output array is the
   * caller's and must not be NULL; a failing engine code is kept in ml_error.
   */
  method Run(obj: Runtime?, input: Ptr, output: Ptr, engine: EngineInference, data: DataType) returns (status: Status)
    modifies obj
    ensures obj == null || input.Null? || output.Null? ==> status == BadArg && (obj == null || unchanged(obj))
    ensures obj != null && !input.Null? && !output.Null? ==>
      status == (if engine.result == 0 then Success else InferenceError)
      && obj.outputQn == (if data != Float32 && engine.outputQ.Some? then engine.outputQ.value else old(obj.inputQn))
      && obj.mlError == (if engine.result == 0 then old(obj.mlError) else engine.result)
      && obj.inputQn == old(obj.inputQn) && obj.pMem == old(obj.pMem) && obj.sMem == old(obj.sMem)
      && obj.flags == old(obj.flags) && obj.inferenceObj == old(obj.inferenceObj)
      && obj.modelInfo == old(obj.modelInfo)
  {
    if obj == null || input.Null? || output.Null? {
      return BadArg;
    }
    obj.outputQn := obj.inputQn;
    if data != Float32 && engine.outputQ.Some? {
      obj.outputQn := engine.outputQ.value;
    }
    if engine.result != 0 {
      obj.mlError := engine.result;
      return InferenceError;
    }
    status := Success;
  }

  /** mtb_ml_model_get_input_size: the parsed input size, 0 for a NULL object. */
  function GetInputSize(obj: Runtime?): (n: int)
    reads obj
    ensures obj == null ==> n == 0
    ensures obj != null ==> n == obj.modelInfo.inputSize
  {
    if obj == null then 0 else obj.modelInfo.inputSize
  }

  /** mtb_ml_model_get_output_size: the parsed output size, 0 for a NULL object. */
  function GetOutputSize(obj: Runtime?): (n: int)
    reads obj
    ensures obj == null ==> n == 0
    ensures obj != null ==> n == obj.modelInfo.outputSize
  {
    if obj == null then 0 else obj.modelInfo.outputSize
  }

  /** mtb_ml_model_get_recurrent_time_series_frames: 0 for a NULL object. */
  function GetRecurrentTimeSeriesFrames(obj: Runtime?): (n: int)
    reads obj
    ensures obj == null ==> n == 0
    ensures obj != null ==> n == obj.modelInfo.recurrentTsSize
  {
    if obj == null then 0 else obj.modelInfo.recurrentTsSize
  }

  /** mtb_ml_model_rnn_state_control: an engine failure is kept in ml_error and reported as BAD_ARG. */
  method RnnStateControl(obj: Runtime?, engineResult: int) returns (status: Status)
    modifies (if obj == null then {} else {obj})`mlError
    ensures status == Success <==> obj != null && engineResult == 0
    ensures status == Success || status == BadArg
    ensures obj != null ==>
      obj.mlError == (if engineResult == 0 then old(obj.mlError) else engineResult)
      && obj.outputQn == old(obj.outputQn) && obj.inputQn == old(obj.inputQn)
  {
    if obj == null {
      return BadArg;
    }
    if engineResult != 0 {
      obj.mlError := engineResult;
      return BadArg;
    }
    status := Success;
  }

  /** mtb_ml_model_get_inference_object: NULL for a NULL object. */
  function GetInferenceObject(obj: Runtime?): (p: Ptr)
    reads obj
    ensures obj == null ==> p == Null
    ensures obj != null ==> p == obj.inferenceObj
  {
    if obj == null then Null else obj.inferenceObj
  }

  /** mtb_ml_model_profile_config of the earlier release: the engine receives the value unconverted. */
  method ProfileConfig(obj: Runtime?, config: ProfileConfig) returns (status: Status, applied: Option<ProfileConfig>)
    ensures status == BadArg <==> obj == null
    ensures status == Success || status == BadArg
    ensures obj == null ==> applied == None
    ensures obj != null ==> applied == Some(config)
  {
    if obj == null {
      return BadArg, None;
    }
    status, applied := Success, Some(config);
  }

  /** mtb_ml_model_set_input_q_fraction_bits (fixed-point builds only): the bits become the input Q. */
  method SetInputQFractionBits(obj: Runtime?, bits: u8) returns (status: Status)
    modifies (if obj == null then {} else {obj})`inputQn
    ensures status == BadArg <==> obj == null
    ensures status == Success || status == BadArg
    ensures obj != null ==>
      obj.inputQn == bits && obj.outputQn == old(obj.outputQn) && obj.mlError == old(obj.mlError)
  {
    if obj == null {
      return BadArg;
    }
    obj.inputQn := bits;
    status := Success;
  }

  /** mtb_ml_model_get_output_q_fraction_bits (fixed-point builds only): the output Q as a uint8_t, 0 for NULL. */
  function GetOutputQFractionBits(obj: Runtime?): (bits: u8)
    reads obj
    ensures obj == null ==> bits == 0
    ensures obj != null && 0 <= obj.outputQn < 256 ==> bits == obj.outputQn
  {
    if obj == null then 0 else obj.outputQn % 256
  }

  /** The bits a caller sets come back as the output Q after a run the engine does not override. */
  method QFractionBitsRoundTrip(obj: Runtime, input: Ptr, output: Ptr, bits: u8, engineResult: int, data: DataType)
    returns (got: u8)
    requires !input.Null? && !output.Null? && data != Float32
    modifies obj
    ensures got == bits
  {
    var _ := SetInputQFractionBits(obj, bits);
    var _ := Run(obj, input, output, EngineInference(engineResult, None), data);
    got := GetOutputQFractionBits(obj);
  }
}
