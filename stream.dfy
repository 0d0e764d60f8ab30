// The streaming-validation front end of the unified model API: it connects
// to a host over UART, announces the model, receives a dataset frame by
// frame, runs the model on each frame and sends the results back. The
// stream object is a single static instance; the model behind it is
// reached only through the model API, so what the stream reads from it is a
// parameter here.

module Stream {
  import opened Common
  import opened StreamCore

  /** The bus a stream interface names; only the UART is supported. */
  datatype Bus = Uart | OtherBus

  /** mtb_ml_stream_interface_t, as far as init looks at it. */
  datatype Interface = Interface(bus: Bus)

  /** What the stream reads from the model object through the model API. */
  datatype ModelFacts = ModelFacts(
    modelSize: int,
    outputSize: int,
    bufferSize: int,
    inputSize: int,
    /** model_info.recurrent_ts_size; present in IFX builds only */
    infoRecurrentTsSize: int,
    /** mtb_ml_model_get_recurrent_time_series_frames */
    recurrentFrames: int,
    outputZeroPoint: int,
    outputScale: real)

  // ---------------------------------------------------------------------
  // The model information message.

  /** engine_type_t */
  const EngIfx: int := 1
  const EngTflm: int := 2

  /**
   * cy_ml_regression_info_t. The output quantisation fields are left unset
   * in IFX builds, hence optional here.
   */
  datatype RegressionInfo = RegressionInfo(outputSize: int, bufferSize: int, modelSize: int, engineType: int,
                                           recurrentTsSize: int, outputZeroPoint: Option<int>,
                                           outputScale: Option<real>)

  /**
   * The model information the handshake sends: sizes from the model
   * object, then per engine either the recurrent series length from the
   * IFX model information, or no series length and the TFLM output
   * quantisation.
   */
  function RegressionInfoFor(engine: Engine, m: ModelFacts): (r: RegressionInfo)
    ensures r.outputSize == m.outputSize && r.bufferSize == m.bufferSize && r.modelSize == m.modelSize
    ensures engine == Ifx <==> r.engineType == EngIfx
    ensures engine == Tflm <==> r.engineType == EngTflm
    ensures engine == Ifx ==> r.recurrentTsSize == m.infoRecurrentTsSize && r.outputZeroPoint.None? && r.outputScale.None?
    ensures engine == Tflm ==>
      r.recurrentTsSize == 0 && r.outputZeroPoint == Some(m.outputZeroPoint) && r.outputScale == Some(m.outputScale)
  {
    match engine
    case Ifx => RegressionInfo(m.outputSize, m.bufferSize, m.modelSize, EngIfx, m.infoRecurrentTsSize, None, None)
    case Tflm => RegressionInfo(m.outputSize, m.bufferSize, m.modelSize, EngTflm, 0,
                                Some(m.outputZeroPoint), Some(m.outputScale))
  }

  // ---------------------------------------------------------------------
  // The dataset header.

  /** sizeof(cy_ml_dataset_header_t): the data type and six int fields. */
  const HeaderLength: nat := 28

  /** The header as its bytes lay it out: data type, n_ex, in_sz, q_fixed, input_size, output_size, baud_rate. */
  function DecodeHeader(bytes: seq<u8>): (h: DatasetHeader)
    requires |bytes| >= HeaderLength
    ensures h.dataType.Some?
  {
    DatasetHeader(Some(Int32At(bytes, 0)), Int32At(bytes, 4), Int32At(bytes, 8), Int32At(bytes, 12),
                  Int32At(bytes, 16), Int32At(bytes, 20), Int32At(bytes, 24))
  }

  /** Whether every field of a header fits an int32_t. */
  predicate InRange(h: DatasetHeader)
  {
    h.dataType.Some?
    && -0x8000_0000 <= h.dataType.value < 0x8000_0000
    && -0x8000_0000 <= h.nEx < 0x8000_0000 && -0x8000_0000 <= h.inSz < 0x8000_0000
    && -0x8000_0000 <= h.qFixed < 0x8000_0000 && -0x8000_0000 <= h.inputSize < 0x8000_0000
    && -0x8000_0000 <= h.outputSize < 0x8000_0000 && -0x8000_0000 <= h.baudRate < 0x8000_0000
  }

  /** The bytes a host sends for a header. */
  function EncodeHeader(h: DatasetHeader): (bytes: seq<u8>)
    requires InRange(h)
    ensures |bytes| == HeaderLength
  {
    EncodeInt32(h.dataType.value) + EncodeInt32(h.nEx) + EncodeInt32(h.inSz) + EncodeInt32(h.qFixed)
    + EncodeInt32(h.inputSize) + EncodeInt32(h.outputSize) + EncodeInt32(h.baudRate)
  }

  /** The device reads back every field the host sent. */
  lemma DecodeEncodeHeader(h: DatasetHeader)
    requires InRange(h)
    ensures DecodeHeader(EncodeHeader(h)) == h
  {
    var e: seq<seq<u8>> := [EncodeInt32(h.dataType.value), EncodeInt32(h.nEx), EncodeInt32(h.inSz), EncodeInt32(h.qFixed),
              EncodeInt32(h.inputSize), EncodeInt32(h.outputSize), EncodeInt32(h.baudRate)];
    var bytes := EncodeHeader(h);
    Int32RoundTrip(h.dataType.value, [], bytes[4..]);
    Int32RoundTrip(h.nEx, bytes[..4], bytes[8..]);
    Int32RoundTrip(h.inSz, bytes[..8], bytes[12..]);
    Int32RoundTrip(h.qFixed, bytes[..12], bytes[16..]);
    Int32RoundTrip(h.inputSize, bytes[..16], bytes[20..]);
    Int32RoundTrip(h.outputSize, bytes[..20], bytes[24..]);
    Int32RoundTrip(h.baudRate, bytes[..24], []);
    assert [] + bytes[..4] + bytes[4..] == bytes;
    assert bytes[..4] + bytes[4..8] + bytes[8..] == bytes;
    assert bytes[..8] + bytes[8..12] + bytes[12..] == bytes;
    assert bytes[..12] + bytes[12..16] + bytes[16..] == bytes;
    assert bytes[..16] + bytes[16..20] + bytes[20..] == bytes;
    assert bytes[..20] + bytes[20..24] + bytes[24..] == bytes;
    assert bytes[..24] + bytes[24..] + [] == bytes;
    assert bytes[..4] == e[0] && bytes[4..8] == e[1] && bytes[8..12] == e[2] && bytes[12..16] == e[3];
    assert bytes[16..20] == e[4] && bytes[20..24] == e[5] && bytes[24..] == e[6];
  }

  // ---------------------------------------------------------------------
  // The stream object.

  /** How the model's init ends: its status, the memory it takes from the heap, and what the model then reports. */
  datatype ModelInit = ModelInit(status: Status, bytes: nat, facts: ModelFacts, output: Ptr)

  /** The stream task's UART results: the handshake, one entry per frame, then ML_COMPLETED and sending ML_DONE. */
  datatype TaskIo = TaskIo(handshake: HandshakeIo, frames: seq<FrameIo>, completedRx: seq<RxEvent>, doneSent: Status)

  /**
   * How init ends: BAD_ARG for a missing interface or model binary or a bus
   * other than the UART, the model's own failure, ALLOC_ERR when the model
   * or the frame buffer does not fit, success otherwise.
   */
  function InitOutcome(iface: Option<Interface>, modelBin: Ptr, mi: ModelInit, unit: nat, avail: int): Status
  {
    if iface.None? || modelBin.Null? then BadArg
    else if iface.value.bus != Uart then BadArg
    else if mi.status != Success then mi.status
    else if !AllFit([mi.bytes, UnitBytes(mi.facts.inputSize, unit)], avail) then AllocErr
    else Success
  }

  /**
   * What the stream task promises once the dataset header has arrived: a header
   * that does not match the model and the build ends it with BAD_ARG and
   * nothing else done; otherwise a recurrent model's state is reset, the
   * input Q format is set, `done` frames went through, results went back
   * after exactly the scheduled ones among them, and the first frame that
   * failed, or else the closing exchange, decides the status.
   */
  ghost predicate SessionOutcome(facts: ModelFacts, unit: nat, h: DatasetHeader, sendsQ: bool, frames: seq<FrameIo>,
                                 completedRx: seq<RxEvent>, doneSent: Status, status: Status, emitted: seq<int>,
                                 rnnReset: bool, qBits: Option<int>, done: nat)
    requires done <= |frames| && h.nEx <= |frames|
  {
    if CheckHeader(h, facts.inputSize, unit, unit) != Success then
      status == BadArg && emitted == [] && !rnnReset && qBits.None?
    else
      rnnReset == (facts.recurrentFrames > 0) && qBits == Some(h.qFixed)
      && emitted == Schedule(done, facts.recurrentFrames)
      && AllOk(frames, done, facts.recurrentFrames, sendsQ, UnitBytes(h.inSz, unit), RxTimeout(h.inSz, unit))
      && (if done < h.nEx
          then status == FrameStatus(frames[done], EmitsAt(done, facts.recurrentFrames), sendsQ,
                                     UnitBytes(h.inSz, unit), RxTimeout(h.inSz, unit))
          else status == ClosingOutcome(completedRx, doneSent))
  }

  /** The static stream object. */
  class StreamObject {
    var modelObject: Ptr
    var modelBin: Ptr
    var out: Ptr
    var rxBuff: Ptr
    var profiling: ProfileConfig
    /** What the model object reports once initialised. */
    var facts: ModelFacts
    /** sizeof(MTB_ML_DATA_T) of the build. */
    var unit: nat

    constructor()
      ensures modelObject == Null && modelBin == Null && out == Null && rxBuff == Null
    {
      modelObject := Null;
      modelBin := Null;
      out := Null;
      rxBuff := Null;
      profiling := ProfileDisable;
      facts := ModelFacts(0, 0, 0, 0, 0, 0, 0, 0.0);
      unit := 0;
    }

    /** The stream owns the model's memory and the frame buffer. */
    ghost predicate Valid(heap: Heap)
      reads this, heap
    {
      heap.Live(modelObject) && heap.Live(rxBuff) && modelObject != rxBuff
      && heap.blocks[rxBuff.id] == UnitBytes(facts.inputSize, unit)
    }

    /**
     * mtb_ml_stream_init: check the arguments, initialise the model, take
     * its output buffer, allocate the frame buffer (releasing the model if
     * that fails) and apply the profiling configuration.
     */
    method Init(heap: Heap, iface: Option<Interface>, profileCfg: ProfileConfig, bin: Ptr, mi: ModelInit, dataUnit: nat)
      returns (status: Status)
      requires heap.Valid()
      modifies this, heap
      ensures heap.Valid()
      ensures status == InitOutcome(iface, bin, mi, dataUnit, old(heap.avail))
      ensures status != Success ==> heap.blocks == old(heap.blocks) && heap.avail == old(heap.avail)
      ensures status == Success ==>
        Valid(heap) && modelObject.id !in old(heap.blocks) && rxBuff.id !in old(heap.blocks)
        && heap.blocks == old(heap.blocks)[modelObject.id := mi.bytes][rxBuff.id := UnitBytes(mi.facts.inputSize, dataUnit)]
        && heap.avail == old(heap.avail) - mi.bytes - UnitBytes(mi.facts.inputSize, dataUnit)
        && modelBin == bin && out == mi.output && facts == mi.facts && unit == dataUnit && profiling == profileCfg
    {
      if iface.None? || bin.Null? {
        return BadArg;
      }
      if iface.value.bus != Uart {
        return BadArg;
      }
      if mi.status != Success {
        return mi.status;
      }
      AllFitPair(mi.bytes, UnitBytes(mi.facts.inputSize, dataUnit), old(heap.avail));
      var model := heap.Alloc(mi.bytes);
      if model.Null? {
        return AllocErr;
      }
      modelObject := model;
      modelBin := bin;
      out := mi.output;
      facts := mi.facts;
      unit := dataUnit;
      var rx := heap.Alloc(UnitBytes(mi.facts.inputSize, dataUnit));
      if rx.Null? {
        heap.Free(model);
        assert heap.blocks == old(heap.blocks);
        return AllocErr;
      }
      rxBuff := rx;
      profiling := profileCfg;
      status := Success;
    }

    /** mtb_ml_stream_deinit: release the model and the frame buffer. */
    method Deinit(heap: Heap)
      requires heap.Valid() && Valid(heap)
      modifies heap
      ensures heap.Valid()
      ensures heap.blocks == old(heap.blocks) - {modelObject.id, rxBuff.id}
      ensures heap.avail == old(heap.avail) + old(heap.blocks)[modelObject.id] + old(heap.blocks)[rxBuff.id]
    {
      heap.Free(modelObject);
      heap.Free(rxBuff);
    }

    /** Whatever init takes, deinit gives back. */
    method InitThenDeinit(heap: Heap, iface: Option<Interface>, profileCfg: ProfileConfig, bin: Ptr, mi: ModelInit, dataUnit: nat)
      returns (status: Status)
      requires heap.Valid()
      modifies this, heap
      ensures status == InitOutcome(iface, bin, mi, dataUnit, old(heap.avail))
      ensures heap.blocks == old(heap.blocks) && heap.avail == old(heap.avail)
    {
      status := Init(heap, iface, profileCfg, bin, mi, dataUnit);
      if status == Success {
        Deinit(heap);
      }
    }

    /**
     * What the stream task does once the header has arrived: check it against the
     * model and the build, reset a recurrent model's state, set the input Q
     * format, run the frame loop and close the session.
     */
    method Stream(h: DatasetHeader, sendsQ: bool, frames: seq<FrameIo>, completedRx: seq<RxEvent>, doneSent: Status,
                  rxData: array<u8>)
      returns (status: Status, emitted: seq<int>, rnnReset: bool, qBits: Option<int>, ghost done: nat)
      requires UnitBytes(facts.inputSize, unit) <= rxData.Length
      requires h.nEx <= |frames|
      requires forall j :: 0 <= j < |frames| ==> UnitBytes(h.inSz, unit) <= |frames[j].bytes|
      modifies rxData
      ensures done <= |frames|
      ensures SessionOutcome(facts, unit, h, sendsQ, frames, completedRx, doneSent, status, emitted, rnnReset, qBits, done)
    {
      emitted, rnnReset, qBits, done := [], false, None, 0;
      status := CheckHeader(h, facts.inputSize, unit, unit);
      if status != Success {
        return;
      }
      var ts := facts.recurrentFrames;
      rnnReset := ts > 0;
      qBits := Some(h.qFixed);
      status, done, emitted := Frames(h.nEx, UnitBytes(h.inSz, unit), RxTimeout(h.inSz, unit), ts, sendsQ,
                                      frames, rxData);
      if status != Success {
        return;
      }
      status := Closing(completedRx, doneSent);
    }

    /**
     * mtb_ml_stream_task: the handshake, then the checked session. `rxData`
     * is the frame buffer's memory; `emitted` are the frames after which a
     * result went back; `rnnReset` and `qBits` say whether the recurrent
     * state was reset and which input Q format was set.
     */
    method Task(sendsQ: bool, io: TaskIo, rxData: array<u8>)
      returns (status: Status, emitted: seq<int>, rnnReset: bool, qBits: Option<int>, ghost done: nat)
      requires |io.handshake.headerBytes| >= HeaderLength
      requires UnitBytes(facts.inputSize, unit) <= rxData.Length
      requires DecodeHeader(io.handshake.headerBytes).nEx <= |io.frames|
      requires forall j :: 0 <= j < |io.frames| ==>
        UnitBytes(DecodeHeader(io.handshake.headerBytes).inSz, unit) <= |io.frames[j].bytes|
      modifies rxData
      ensures HandshakeOutcome(io.handshake, HeaderLength) != Success ==>
        status == HandshakeOutcome(io.handshake, HeaderLength) && emitted == [] && !rnnReset && qBits.None?
      ensures HandshakeOutcome(io.handshake, HeaderLength) == Success ==>
        done <= |io.frames|
        && SessionOutcome(facts, unit, DecodeHeader(io.handshake.headerBytes), sendsQ, io.frames, io.completedRx,
                          io.doneSent, status, emitted, rnnReset, qBits, done)
    {
      var header := new u8[HeaderLength];
      status := Handshake(io.handshake, header);
      if status != Success {
        return status, [], false, None, 0;
      }
      var h := DecodeHeader(header[..]);
      assert header[..] == io.handshake.headerBytes[..HeaderLength];
      assert h == DecodeHeader(io.handshake.headerBytes);
      status, emitted, rnnReset, qBits, done := Stream(h, sendsQ, io.frames, io.completedRx, io.doneSent, rxData);
    }
  }
}
