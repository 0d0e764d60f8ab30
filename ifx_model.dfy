// The runtime object of the fixed-point (IFX) inference engine: how init
// chooses, per working buffer, between caller memory and heap memory and
// records the choice in `flags`, how every failure unwinds exactly what was
// taken, and how deinit gives back exactly what init took. The engine itself
// (model parsing, initialisation, inference) is an oracle.

module IfxModel {
  import opened Common

  // ---------------------------------------------------------------------
  // Profiling configuration handed to the engine.

  /** The engine's own profiling settings (cy_en_ml_profile_config_t). */
  datatype EngineProfile =
    | CyDisable
    | CyEnableModel
    | CyEnableLayer
    | CyEnableModelPerFrame
    | CyEnableLayerPerFrame
    | CyLogEnableModelLog

  /** The middleware value each engine setting corresponds to. */
  function MiddlewareConfig(e: EngineProfile): (config: ProfileConfig)
  {
    match e
    case CyDisable => ProfileDisable
    case CyEnableModel => ProfileEnableModel
    case CyEnableLayer => ProfileEnableLayer
    case CyEnableModelPerFrame => ProfileEnableModelPerFrame
    case CyEnableLayerPerFrame => ProfileEnableLayerPerFrame
    case CyLogEnableModelLog => LogEnableModelLog
  }

  /**
   * convert_profile_config: each of the six single values maps to its engine
   * counterpart; anything else, combinations of bits included, disables.
   */
  function ConvertProfileConfig(config: ProfileConfig): (e: EngineProfile)
    ensures config == ProfileDisable ==> e == CyDisable
  {
    if config == ProfileEnableModel then CyEnableModel
    else if config == ProfileEnableLayer then CyEnableLayer
    else if config == ProfileEnableModelPerFrame then CyEnableModelPerFrame
    else if config == ProfileEnableLayerPerFrame then CyEnableLayerPerFrame
    else if config == LogEnableModelLog then CyLogEnableModelLog
    else CyDisable
  }

  /** Every engine setting is reached from exactly its own middleware value. */
  lemma ConvertProfileConfigInverts(e: EngineProfile)
    ensures ConvertProfileConfig(MiddlewareConfig(e)) == e
  {
  }

  /** A value that is none of the six, such as two bits together, disables profiling. */
  lemma ConvertProfileConfigRejectsOthers(config: ProfileConfig)
    requires forall e :: config != MiddlewareConfig(e)
    ensures ConvertProfileConfig(config) == CyDisable
  {
    assert config != MiddlewareConfig(CyEnableModel);
    assert config != MiddlewareConfig(CyEnableLayer);
    assert config != MiddlewareConfig(CyEnableModelPerFrame);
    assert config != MiddlewareConfig(CyEnableLayerPerFrame);
    assert config != MiddlewareConfig(CyLogEnableModelLog);
  }

  /** Model profiling together with the per-frame log is not one of the six values. */
  lemma CombinedConfigDisables()
    ensures ConvertProfileConfig(ProfileEnableModel | LogEnableModelLog) == CyDisable
  {
  }

  // ---------------------------------------------------------------------
  // Inputs to init and the engine oracle.

  /** What Cy_ML_Model_Parse reads from the parameter blob (cy_stc_ml_model_info_t). */
  datatype ModelInfo = ModelInfo(
    persistentMem: int,
    scratchMem: int,
    inputSize: int,
    outputSize: int,
    recurrentTsSize: int)

  /** mtb_ml_model_bin_t: the model name, the parameter blob and the weight blob. */
  datatype ModelBin = ModelBin(name: seq<char>, prmsBin: Ptr, prmsSize: int, wtsBin: Ptr, wtsSize: int)

  /** mtb_ml_model_buffer_t: caller-supplied working memory, either part may be NULL. */
  datatype ModelBuffer = ModelBuffer(persistent: Ptr, scratch: Ptr)

  /**
   * The engine's answers during init: the parse result (None when parsing
   * fails), whether Cy_ML_Model_Init accepts the buffers, and the inference
   * handle it returns.
   */
  datatype EngineInit = EngineInit(parsed: Option<ModelInfo>, initAccepts: bool, handle: Ptr)

  /** The engine's answer to one inference: its return code (0 is success) and, if it sets one, the output Q. */
  datatype EngineInference = EngineInference(result: int, outputQ: Option<int>)

  const MemDynamicPersistent: bv32 := 1
  const MemDynamicScratch: bv32 := 2

  /** Init allocates the persistent buffer when the caller supplies none. */
  predicate AllocatesPersistent(buffer: Option<ModelBuffer>)
  {
    buffer.None? || buffer.value.persistent.Null?
  }

  /** Init allocates the scratch buffer when the caller supplies none. */
  predicate AllocatesScratch(buffer: Option<ModelBuffer>)
  {
    buffer.None? || buffer.value.scratch.Null?
  }

  /**
   * The output buffer's malloc size: `output_size * sizeof(MTB_ML_DATA_T)`,
   * a product of 32-bit size_t values.
   */
  function OutputRequest(info: ModelInfo, data: DataType): (n: u32)
    ensures 0 <= info.outputSize && info.outputSize * DataBytes(data) < Two32 ==>
      n == info.outputSize * DataBytes(data)
    ensures (n - info.outputSize * DataBytes(data)) % Two32 == 0
  {
    WrapProduct(info.outputSize, DataBytes(data));
    Wrap32(Wrap32(info.outputSize) * DataBytes(data))
  }

  /** Reducing a factor modulo 2^32 before the product leaves the product's residue alone. */
  lemma WrapProduct(x: int, b: nat)
    ensures (Wrap32(Wrap32(x) * b) - x * b) % Two32 == 0
  {
    var w, k := x % Two32, x / Two32;
    assert x == k * Two32 + w;
    var y := w * b;
    var r, m := y % Two32, y / Two32;
    assert y == m * Two32 + r;
    assert Wrap32(x) == w && Wrap32(y) == r;
    Distribute(k, w, b);
    assert r - x * b == (-(k * b) - m) * Two32;
    MultipleMod(-(k * b) - m);
  }

  /** (k * 2^32 + w) * b, multiplied out. */
  lemma Distribute(k: int, w: int, b: int)
    ensures (k * Two32 + w) * b == (k * b) * Two32 + w * b
  {
  }

  /** A multiple of 2^32 has no remainder. */
  lemma MultipleMod(c: int)
    ensures (c * Two32) % Two32 == 0
  {
  }

  /** Output sizes from 2^30 on wrap in a float build: 2^30 asks for 0 bytes, 2^30 + 1 for 4. */
  lemma OutputRequestWraps()
    ensures OutputRequest(ModelInfo(0, 0, 0, 0x4000_0000, 0), Float32) == 0
    ensures OutputRequest(ModelInfo(0, 0, 0, 0x4000_0001, 0), Float32) == 4
    ensures OutputRequest(ModelInfo(0, 0, 0, 0x3FFF_FFFF, 0), Float32) == 0xFFFF_FFFC
  {
  }

  /** The heap requests init makes after the runtime object itself, in order; malloc takes each as a size_t. */
  function Requests(info: ModelInfo, buffer: Option<ModelBuffer>, data: DataType): seq<int>
  {
    (if AllocatesPersistent(buffer) then [Wrap32(info.persistentMem)] else [])
    + (if AllocatesScratch(buffer) then [Wrap32(info.scratchMem)] else [])
    + [OutputRequest(info, data)]
  }

  /** The argument check init performs before touching the heap. */
  predicate ArgsOk(bin: Option<ModelBin>, hasObject: bool)
  {
    bin.Some? && !bin.value.prmsBin.Null? && !bin.value.wtsBin.Null? && hasObject
  }

  // ---------------------------------------------------------------------
  // The runtime object.

  /** mtb_ml_model_t in an IFX build. `self` is the heap block holding the object. */
  class Runtime {
    const self: nat
    var name: seq<char>
    var modelSize: int
    var bufferSize: int
    var inputSize: int
    var outputSize: int
    var libError: int
    var output: Ptr
    var pMem: Ptr
    var sMem: Ptr
    var inferenceObj: Ptr
    var inputQn: int
    var outputQn: int
    var flags: bv32
    var modelInfo: ModelInfo

    /** The object as calloc leaves it: every field zero or NULL. */
    constructor(id: nat)
      ensures self == id
      ensures name == [] && modelSize == 0 && bufferSize == 0 && inputSize == 0 && outputSize == 0
      ensures libError == 0 && output == Null && pMem == Null && sMem == Null && inferenceObj == Null
      ensures inputQn == 0 && outputQn == 0 && flags == 0 && modelInfo == ModelInfo(0, 0, 0, 0, 0)
    {
      self := id;
      name := [];
      modelSize := 0;
      bufferSize := 0;
      inputSize := 0;
      outputSize := 0;
      libError := 0;
      output := Null;
      pMem := Null;
      sMem := Null;
      inferenceObj := Null;
      inputQn := 0;
      outputQn := 0;
      flags := 0;
      modelInfo := ModelInfo(0, 0, 0, 0, 0);
    }

    /** The object allocated the persistent buffer itself. */
    predicate OwnsPersistent()
      reads this
    {
      flags & MemDynamicPersistent != 0
    }

    /** The object allocated the scratch buffer itself. */
    predicate OwnsScratch()
      reads this
    {
      flags & MemDynamicScratch != 0
    }

    /** The heap blocks the rollback path and deinit give back. */
    function Owned(): set<nat>
      reads this
    {
      {self}
      + (if OwnsPersistent() && pMem.HeapBlock? then {pMem.id} else {})
      + (if OwnsScratch() && sMem.HeapBlock? then {sMem.id} else {})
      + (if output.HeapBlock? then {output.id} else {})
    }

    /**
     * The blocks the object owns are live and distinct. This holds at every
     * step of init, so the rollback path may run at any of them.
     */
    ghost predicate Consistent(heap: Heap)
      reads this, heap
    {
      heap.Valid() && self in heap.blocks
      && (OwnsPersistent() ==> pMem.HeapBlock? && pMem.id in heap.blocks && pMem.id != self)
      && (OwnsScratch() ==>
            sMem.HeapBlock? && sMem.id in heap.blocks && sMem.id != self
            && (OwnsPersistent() ==> sMem.id != pMem.id))
      && (output.Null? || output.HeapBlock?)
      && (output.HeapBlock? ==>
            output.id in heap.blocks && output.id != self
            && (OwnsPersistent() ==> output.id != pMem.id)
            && (OwnsScratch() ==> output.id != sMem.id))
    }

    /** A fully initialised obj: consistent, with its output buffer in place. */
    ghost predicate Valid(heap: Heap)
      reads this, heap
    {
      Consistent(heap) && output.HeapBlock?
    }

    /** The memory the owned blocks take together. */
    function Footprint(heap: Heap): int
      reads this, heap
      requires Consistent(heap)
    {
      heap.blocks[self]
      + (if OwnsPersistent() then heap.blocks[pMem.id] else 0)
      + (if OwnsScratch() then heap.blocks[sMem.id] else 0)
      + (if output.HeapBlock? then heap.blocks[output.id] else 0)
    }

    /**
     * The release sequence shared by init's RET_ERR path and deinit: the
     * flagged buffers, the output buffer and the object go back to the heap,
     * and nothing else does.
     */
    method Release(heap: Heap)
      requires Consistent(heap)
      modifies this`pMem, this`sMem, heap
      ensures heap.Valid()
      ensures heap.blocks == old(heap.blocks) - old(Owned())
      ensures heap.avail == old(heap.avail) + old(Footprint(heap))
      ensures old(OwnsPersistent()) ==> pMem == Null
      ensures old(OwnsScratch()) ==> sMem == Null
    {
      if !pMem.Null? && OwnsPersistent() {
        heap.Free(pMem);
        pMem := Null;
      }
      if !sMem.Null? && OwnsScratch() {
        heap.Free(sMem);
        sMem := Null;
      }
      if !output.Null? {
        heap.Free(output);
      }
      heap.Free(HeapBlock(self));
      assert heap.blocks == old(heap.blocks) - old(Owned());
    }

    /**
     * Since the heap stood at `blocks0` and `avail0`, it has gained exactly
     * the blocks the object owns and lost exactly the memory they take.
     */
    ghost predicate Tracks(heap: Heap, blocks0: map<nat, nat>, avail0: int)
      reads this, heap
    {
      Consistent(heap) && heap.blocks - Owned() == blocks0 && Owned() !! blocks0.Keys
      && heap.avail + Footprint(heap) == avail0
    }

    /** Init's persistent-buffer step: allocate and flag one when the caller gives none, else borrow the caller's. */
    method TakePersistent(heap: Heap, buffer: Option<ModelBuffer>, size: int, ghost blocks0: map<nat, nat>, ghost avail0: int)
      returns (ok: bool)
      requires Tracks(heap, blocks0, avail0) && !OwnsPersistent()
      modifies heap, this`pMem, this`flags
      ensures Tracks(heap, blocks0, avail0)
      ensures ok <==> !AllocatesPersistent(buffer) || 0 <= size <= old(heap.avail)
      ensures heap.avail == old(heap.avail) - (if ok && AllocatesPersistent(buffer) then size else 0)
      ensures OwnsScratch() == old(OwnsScratch())
      ensures ok ==> (OwnsPersistent() <==> AllocatesPersistent(buffer))
      ensures ok && !AllocatesPersistent(buffer) ==> pMem == buffer.value.persistent
    {
      if AllocatesPersistent(buffer) {
        var p := heap.Alloc(size);
        if p.Null? {
          return false;
        }
        pMem := p;
        flags := flags | MemDynamicPersistent;
      } else {
        pMem := buffer.value.persistent;
      }
      ok := true;
    }

    /** Init's scratch-buffer step: allocate and flag one when the caller gives none, else borrow the caller's. */
    method TakeScratch(heap: Heap, buffer: Option<ModelBuffer>, size: int, ghost blocks0: map<nat, nat>, ghost avail0: int)
      returns (ok: bool)
      requires Tracks(heap, blocks0, avail0) && !OwnsScratch()
      modifies heap, this`sMem, this`flags
      ensures Tracks(heap, blocks0, avail0)
      ensures ok <==> !AllocatesScratch(buffer) || 0 <= size <= old(heap.avail)
      ensures heap.avail == old(heap.avail) - (if ok && AllocatesScratch(buffer) then size else 0)
      ensures OwnsPersistent() == old(OwnsPersistent())
      ensures ok ==> (OwnsScratch() <==> AllocatesScratch(buffer))
      ensures ok && !AllocatesScratch(buffer) ==> sMem == buffer.value.scratch
    {
      if AllocatesScratch(buffer) {
        var p := heap.Alloc(size);
        if p.Null? {
          return false;
        }
        sMem := p;
        flags := flags | MemDynamicScratch;
      } else {
        sMem := buffer.value.scratch;
      }
      ok := true;
    }

    /** Init's output-buffer step: always allocated. */
    method TakeOutput(heap: Heap, size: int, ghost blocks0: map<nat, nat>, ghost avail0: int)
      returns (ok: bool)
      requires Tracks(heap, blocks0, avail0) && output.Null?
      modifies heap, this`output
      ensures Tracks(heap, blocks0, avail0)
      ensures ok <==> 0 <= size <= old(heap.avail)
      ensures heap.avail == old(heap.avail) - (if ok then size else 0)
      ensures ok ==> output.HeapBlock?
    {
      output := heap.Alloc(size);
      ok := !output.Null?;
    }

    /**
     * Init's three buffer steps in order; they all succeed exactly when the
     * requests fit one after another.
     */
    method TakeBuffers(heap: Heap, info: ModelInfo, buffer: Option<ModelBuffer>, data: DataType,
                       ghost blocks0: map<nat, nat>, ghost avail0: int)
      returns (ok: bool)
      requires Tracks(heap, blocks0, avail0) && !OwnsPersistent() && !OwnsScratch() && output.Null?
      modifies heap, this`pMem, this`sMem, this`flags, this`output
      ensures Tracks(heap, blocks0, avail0)
      ensures ok <==> AllFit(Requests(info, buffer, data), old(heap.avail))
      ensures ok ==> heap.avail == old(heap.avail) - Total(Requests(info, buffer, data))
      ensures ok ==>
        output.HeapBlock?
        && (OwnsPersistent() <==> AllocatesPersistent(buffer))
        && (!AllocatesPersistent(buffer) ==> pMem == buffer.value.persistent)
        && (OwnsScratch() <==> AllocatesScratch(buffer))
        && (!AllocatesScratch(buffer) ==> sMem == buffer.value.scratch)
    {
      RequestsFit(info, buffer, data, heap.avail);
      ok := TakePersistent(heap, buffer, Wrap32(info.persistentMem), blocks0, avail0);
      if ok {
        ok := TakeScratch(heap, buffer, Wrap32(info.scratchMem), blocks0, avail0);
        if ok {
          ok := TakeOutput(heap, OutputRequest(info, data), blocks0, avail0);
        }
      }
    }
  }

  // ---------------------------------------------------------------------
  // Lifecycle.

  /**
   * The result init arrives at: the argument check first, then the object
   * allocation, the parse, the buffer allocations in order, and the engine.
   */
  function InitOutcome(bin: Option<ModelBin>, hasObject: bool, buffer: Option<ModelBuffer>,
                       engine: EngineInit, objBytes: nat, data: DataType, avail: int): (status: Status)
    ensures status in {Success, BadArg, AllocErr, BadModel}
  {
    if !ArgsOk(bin, hasObject) then BadArg
    else if objBytes > avail then AllocErr
    else if engine.parsed.None? then BadModel
    else if !AllFit(Requests(engine.parsed.value, buffer, data), avail - objBytes) then AllocErr
    else if engine.initAccepts then Success
    else BadModel
  }

  /** The fields a successful init leaves in the runtime object. */
  ghost predicate Initialised(r: Runtime, b: ModelBin, info: ModelInfo, buffer: Option<ModelBuffer>, engine: EngineInit)
    reads r
  {
    r.name == b.name
    && r.modelSize == b.wtsSize + b.prmsSize
    && r.modelInfo == info
    && r.bufferSize == info.scratchMem + info.persistentMem
    && r.inputSize == info.inputSize && r.outputSize == info.outputSize
    && r.output.HeapBlock?
    && (r.OwnsPersistent() <==> AllocatesPersistent(buffer))
    && (!AllocatesPersistent(buffer) ==> r.pMem == buffer.value.persistent)
    && (r.OwnsScratch() <==> AllocatesScratch(buffer))
    && (!AllocatesScratch(buffer) ==> r.sMem == buffer.value.scratch)
    && r.inferenceObj == engine.handle
    && r.libError == 0 && r.inputQn == 0 && r.outputQn == 0
  }

  /**
   * mtb_ml_model_init. Every failure leaves the heap and *object as they
   * were; success writes *object and leaves exactly the object's owned
   * blocks added to the heap.
   */
  method Init(heap: Heap, bin: Option<ModelBin>, buffer: Option<ModelBuffer>, obj: Slot?<Runtime?>,
              engine: EngineInit, objBytes: nat, data: DataType)
    returns (status: Status)
    requires heap.Valid()
    modifies heap, obj
    ensures heap.Valid()
    ensures status == InitOutcome(bin, obj != null, buffer, engine, objBytes, data, old(heap.avail))
    ensures status == BadArg ==> unchanged(heap)
    ensures status != Success ==>
      heap.blocks == old(heap.blocks) && heap.avail == old(heap.avail)
      && (obj != null ==> obj.value == old(obj.value))
    ensures status == Success ==>
      obj != null && obj.value != null && fresh(obj.value)
      && obj.value.Valid(heap)
      && heap.blocks - obj.value.Owned() == old(heap.blocks)
      && obj.value.Owned() !! old(heap.blocks).Keys
      && obj.value.Footprint(heap) == objBytes + Total(Requests(engine.parsed.value, buffer, data))
      && heap.avail == old(heap.avail) - obj.value.Footprint(heap)
      && Initialised(obj.value, bin.value, engine.parsed.value, buffer, engine)
  {
    if !ArgsOk(bin, obj != null) {
      return BadArg;
    }
    var b := bin.value;
    var r := NewRuntime(heap, b, objBytes);
    if r == null {
      return AllocErr;
    }
    status := Complete(heap, r, b, buffer, obj, engine, data, old(heap.blocks), old(heap.avail));
  }

  /** The calloc of the runtime object, with the model's name and size filled in. */
  method NewRuntime(heap: Heap, b: ModelBin, objBytes: nat) returns (r: Runtime?)
    requires heap.Valid()
    modifies heap
    ensures heap.Valid()
    ensures r == null <==> objBytes > old(heap.avail)
    ensures r == null ==> heap.blocks == old(heap.blocks) && heap.avail == old(heap.avail)
    ensures r != null ==>
      fresh(r) && r.Tracks(heap, old(heap.blocks), old(heap.avail)) && r.Footprint(heap) == objBytes
      && r.flags == 0 && r.output.Null? && r.name == b.name && r.modelSize == b.wtsSize + b.prmsSize
      && r.libError == 0 && r.inputQn == 0 && r.outputQn == 0
  {
    var block := heap.Alloc(objBytes);
    if block.Null? {
      return null;
    }
    r := new Runtime(block.id);
    r.name := b.name;
    r.modelSize := b.wtsSize + b.prmsSize;
  }

  /** The rest of mtb_ml_model_init once the runtime object exists, through RET_ERR. */
  method Complete(heap: Heap, r: Runtime, b: ModelBin, buffer: Option<ModelBuffer>, obj: Slot<Runtime?>,
                  engine: EngineInit, data: DataType, ghost blocks0: map<nat, nat>, ghost avail0: int)
    returns (status: Status)
    requires r.Tracks(heap, blocks0, avail0) && r.flags == 0 && r.output.Null?
    requires r.name == b.name && r.modelSize == b.wtsSize + b.prmsSize
    requires r.libError == 0 && r.inputQn == 0 && r.outputQn == 0
    modifies heap, r, obj
    ensures heap.Valid()
    ensures status ==
      (if engine.parsed.None? then BadModel
       else if !AllFit(Requests(engine.parsed.value, buffer, data), old(heap.avail)) then AllocErr
       else if engine.initAccepts then Success
       else BadModel)
    ensures status != Success ==>
      heap.blocks == blocks0 && heap.avail == avail0 && obj.value == old(obj.value)
    ensures status == Success ==>
      obj.value == r && r.Valid(heap) && r.Tracks(heap, blocks0, avail0)
      && r.Footprint(heap) == old(r.Footprint(heap)) + Total(Requests(engine.parsed.value, buffer, data))
      && Initialised(r, b, engine.parsed.value, buffer, engine)
  {
    if engine.parsed.None? {
      r.Release(heap);
      return BadModel;
    }
    var info := engine.parsed.value;
    r.modelInfo := info;
    r.bufferSize := info.scratchMem + info.persistentMem;
    r.inputSize := info.inputSize;
    r.outputSize := info.outputSize;
    status := Finish(heap, r, info, buffer, obj, engine, data, blocks0, avail0);
  }

  /** The buffer allocations and the engine's initialisation, with RET_ERR on failure. */
  method Finish(heap: Heap, r: Runtime, info: ModelInfo, buffer: Option<ModelBuffer>, obj: Slot<Runtime?>,
                engine: EngineInit, data: DataType, ghost blocks0: map<nat, nat>, ghost avail0: int)
    returns (status: Status)
    requires r.Tracks(heap, blocks0, avail0) && r.flags == 0 && r.output.Null?
    modifies heap, r, obj
    ensures heap.Valid()
    ensures status ==
      (if !AllFit(Requests(info, buffer, data), old(heap.avail)) then AllocErr
       else if engine.initAccepts then Success
       else BadModel)
    ensures status != Success ==>
      heap.blocks == blocks0 && heap.avail == avail0 && obj.value == old(obj.value)
    ensures status == Success ==>
      obj.value == r && r.Valid(heap) && r.Tracks(heap, blocks0, avail0)
      && r.Footprint(heap) == old(r.Footprint(heap)) + Total(Requests(info, buffer, data))
      && r.inferenceObj == engine.handle && r.output.HeapBlock?
      && (r.OwnsPersistent() <==> AllocatesPersistent(buffer))
      && (!AllocatesPersistent(buffer) ==> r.pMem == buffer.value.persistent)
      && (r.OwnsScratch() <==> AllocatesScratch(buffer))
      && (!AllocatesScratch(buffer) ==> r.sMem == buffer.value.scratch)
    ensures unchanged(r`name, r`modelSize, r`modelInfo, r`bufferSize, r`inputSize, r`outputSize)
    ensures unchanged(r`libError, r`inputQn, r`outputQn)
  {
    var ok := r.TakeBuffers(heap, info, buffer, data, blocks0, avail0);
    if !ok {
      r.Release(heap);
      return AllocErr;
    }

    if engine.initAccepts {
      r.inferenceObj := engine.handle;
      obj.value := r;
      return Success;
    }
    r.Release(heap);
    status := BadModel;
  }

  /**
   * The requests fit, one after another, exactly when each one fits in what
   * the earlier ones left; together they take the sum of the ones made.
   */
  lemma RequestsFit(info: ModelInfo, buffer: Option<ModelBuffer>, data: DataType, avail: int)
    ensures
      var p := if AllocatesPersistent(buffer) then Wrap32(info.persistentMem) else 0;
      var s := if AllocatesScratch(buffer) then Wrap32(info.scratchMem) else 0;
      var o := OutputRequest(info, data);
      (AllFit(Requests(info, buffer, data), avail) <==>
        (AllocatesPersistent(buffer) ==> 0 <= p <= avail)
        && (AllocatesScratch(buffer) ==> 0 <= s <= avail - p)
        && 0 <= o <= avail - p - s)
      && Total(Requests(info, buffer, data)) == p + s + o
  {
    var p, s, o := Wrap32(info.persistentMem), Wrap32(info.scratchMem), OutputRequest(info, data);
    var last := [o];
    FitCons(o, [], avail - (if AllocatesPersistent(buffer) then p else 0)
                         - (if AllocatesScratch(buffer) then s else 0));
    var tail := (if AllocatesScratch(buffer) then [s] else []) + last;
    if AllocatesScratch(buffer) {
      FitCons(s, last, avail - (if AllocatesPersistent(buffer) then p else 0));
    }
    if AllocatesPersistent(buffer) {
      FitCons(p, tail, avail);
    }
    assert Requests(info, buffer, data) == (if AllocatesPersistent(buffer) then [p] else []) + tail;
  }

  /** One request in front of others: it must fit first, and the rest must fit in what it leaves. */
  lemma FitCons(x: int, rest: seq<int>, avail: int)
    ensures AllFit([x] + rest, avail) <==> 0 <= x <= avail && AllFit(rest, avail - x)
    ensures Total([x] + rest) == x + Total(rest)
  {
    assert ([x] + rest)[1..] == rest;
  }

  /** mtb_ml_model_deinit: BAD_ARG on NULL, otherwise exactly the owned blocks go back to the heap. */
  method Deinit(heap: Heap, obj: Runtime?) returns (status: Status)
    requires obj != null ==> obj.Consistent(heap)
    modifies heap, obj
    ensures obj == null ==> status == BadArg && unchanged(heap)
    ensures obj != null ==>
      status == Success && heap.Valid()
      && heap.blocks == old(heap.blocks) - old(obj.Owned())
      && heap.avail == old(heap.avail) + old(obj.Footprint(heap))
  {
    if obj == null {
      return BadArg;
    }
    obj.Release(heap);
    status := Success;
  }

  /**
   * A model brought up and torn down again leaves the heap as it found it,
   * whichever buffers the caller supplied and however init ended.
   */
  method InitThenDeinit(heap: Heap, bin: Option<ModelBin>, buffer: Option<ModelBuffer>,
                        engine: EngineInit, objBytes: nat, data: DataType)
    returns (status: Status)
    requires heap.Valid()
    modifies heap
    ensures heap.Valid()
    ensures heap.blocks == old(heap.blocks) && heap.avail == old(heap.avail)
  {
    var obj := new Slot<Runtime?>(null);
    status := Init(heap, bin, buffer, obj, engine, objBytes, data);
    if status == Success {
      var r := obj.value;
      var _ := Deinit(heap, r);
    }
  }

  // ---------------------------------------------------------------------
  // Inference and accessors.

  /**
   * mtb_ml_model_run: BAD_ARG on a NULL object or input; otherwise the output
   * Q starts as the input Q and the engine may replace it (never in a float
   * build); a failing engine code is kept in lib_error.
   */
  method Run(obj: Runtime?, input: Ptr, engine: EngineInference, data: DataType) returns (status: Status)
    modifies obj
    ensures obj == null || input.Null? ==> status == BadArg && (obj == null || unchanged(obj))
    ensures obj != null && !input.Null? ==>
      status == (if engine.result == 0 then Success else InferenceError)
      && obj.outputQn == (if data != Float32 && engine.outputQ.Some? then engine.outputQ.value else old(obj.inputQn))
      && obj.libError == (if engine.result == 0 then old(obj.libError) else engine.result)
      && obj.inputQn == old(obj.inputQn) && obj.output == old(obj.output)
      && obj.pMem == old(obj.pMem) && obj.sMem == old(obj.sMem) && obj.flags == old(obj.flags)
      && obj.inferenceObj == old(obj.inferenceObj) && obj.modelInfo == old(obj.modelInfo)
      && obj.inputSize == old(obj.inputSize) && obj.outputSize == old(obj.outputSize)
      && obj.name == old(obj.name) && obj.modelSize == old(obj.modelSize)
      && obj.bufferSize == old(obj.bufferSize)
  {
    if obj == null || input.Null? {
      return BadArg;
    }
    obj.outputQn := obj.inputQn;
    if data != Float32 && engine.outputQ.Some? {
      obj.outputQn := engine.outputQ.value;
    }
    if engine.result != 0 {
      obj.libError := engine.result;
      return InferenceError;
    }
    status := Success;
  }

  /** mtb_ml_model_get_input_size: 0 for a NULL obj. */
  function GetInputSize(obj: Runtime?): (n: int)
    reads obj
    ensures obj == null ==> n == 0
    ensures obj != null ==> n == obj.inputSize
  {
    if obj == null then 0 else obj.inputSize
  }

  /** mtb_ml_model_get_output: writes each out-parameter that is not NULL. */
  method GetOutput(obj: Runtime?, outputPtr: Slot?<Ptr>, sizePtr: Slot?<int>) returns (status: Status)
    modifies outputPtr, sizePtr
    ensures status == BadArg <==> obj == null
    ensures status == Success || status == BadArg
    ensures obj == null ==> (outputPtr == null || unchanged(outputPtr)) && (sizePtr == null || unchanged(sizePtr))
    ensures obj != null && outputPtr != null ==> outputPtr.value == obj.output
    ensures obj != null && sizePtr != null ==> sizePtr.value == obj.outputSize
  {
    if obj == null {
      return BadArg;
    }
    if outputPtr != null {
      outputPtr.value := obj.output;
    }
    if sizePtr != null {
      sizePtr.value := obj.outputSize;
    }
    status := Success;
  }

  /** mtb_ml_model_get_recurrent_time_series_frames: 0 for a NULL obj. */
  function GetRecurrentTimeSeriesFrames(obj: Runtime?): (n: int)
    reads obj
    ensures obj == null ==> n == 0
    ensures obj != null ==> n == obj.modelInfo.recurrentTsSize
  {
    if obj == null then 0 else obj.modelInfo.recurrentTsSize
  }

  /** mtb_ml_model_rnn_state_control: an engine failure is kept in lib_error and reported as BAD_ARG. */
  method RnnStateControl(obj: Runtime?, engineResult: int) returns (status: Status)
    modifies (if obj == null then {} else {obj})`libError
    ensures status == Success <==> obj != null && engineResult == 0
    ensures status == Success || status == BadArg
    ensures obj != null ==>
      obj.libError == (if engineResult == 0 then old(obj.libError) else engineResult)
      && obj.outputQn == old(obj.outputQn) && obj.inputQn == old(obj.inputQn)
  {
    if obj == null {
      return BadArg;
    }
    if engineResult != 0 {
      obj.libError := engineResult;
      return BadArg;
    }
    status := Success;
  }

  /** mtb_ml_model_get_inference_object: NULL for a NULL obj. */
  function GetInferenceObject(obj: Runtime?): (p: Ptr)
    reads obj
    ensures obj == null ==> p == Null
    ensures obj != null ==> p == obj.inferenceObj
  {
    if obj == null then Null else obj.inferenceObj
  }

  /**
   * mtb_ml_model_profile_config: BAD_ARG on a NULL obj, otherwise the
   * engine receives the converted setting.
   */
  method ProfileConfig(obj: Runtime?, config: ProfileConfig) returns (status: Status, applied: Option<EngineProfile>)
    ensures status == BadArg <==> obj == null
    ensures status == Success || status == BadArg
    ensures obj == null ==> applied == None
    ensures obj != null ==> applied == Some(ConvertProfileConfig(config))
  {
    if obj == null {
      return BadArg, None;
    }
    status, applied := Success, Some(ConvertProfileConfig(config));
  }

  /** mtb_ml_model_set_input_q_fraction_bits: the bits become the input Q. */
  method SetInputQFractionBits(obj: Runtime?, bits: u8) returns (status: Status)
    modifies (if obj == null then {} else {obj})`inputQn
    ensures status == BadArg <==> obj == null
    ensures status == Success || status == BadArg
    ensures obj != null ==>
      obj.inputQn == bits && obj.outputQn == old(obj.outputQn) && obj.libError == old(obj.libError)
  {
    if obj == null {
      return BadArg;
    }
    obj.inputQn := bits;
    status := Success;
  }

  /** mtb_ml_model_get_output_q_fraction_bits: 0 on NULL or in a float build, else the output Q as a uint8_t. */
  function GetOutputQFractionBits(obj: Runtime?, data: DataType): (bits: u8)
    reads obj
    ensures obj == null || data == Float32 ==> bits == 0
    ensures obj != null && data != Float32 && 0 <= obj.outputQn < 256 ==> bits == obj.outputQn
  {
    if obj == null || data == Float32 then 0 else obj.outputQn % 256
  }

  /**
   * The Q fraction bits a caller sets come back as the output Q after any
   * run the engine does not override, whether the run succeeded or not.
   */
  method QFractionBitsRoundTrip(obj: Runtime, input: Ptr, bits: u8, engineResult: int, data: DataType)
    returns (got: u8)
    requires !input.Null? && data != Float32
    modifies obj
    ensures got == bits
  {
    var _ := SetInputQFractionBits(obj, bits);
    var _ := Run(obj, input, EngineInference(engineResult, None), data);
    got := GetOutputQFractionBits(obj, data);
  }
}
