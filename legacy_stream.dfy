// The streaming-validation front end of the legacy IFX-only API. It speaks
// the same protocol as the unified one, with the older header layout and
// model-information message; it also owns the output buffer it passes to
// each inference.

module LegacyStream {
  import opened Common
  import opened StreamCore

  /** The bus a stream interface names; only the UART is supported. */
  datatype Bus = Uart | OtherBus

  /** mtb_ml_stream_interface_t, as far as init looks at it. */
  datatype Interface = Interface(bus: Bus)

  /** The IFX model information the stream reads (cy_stc_ml_model_info_t). */
  datatype ModelInfo = ModelInfo(inputSize: int, outputSize: int, persistentMem: int, scratchMem: int,
                                 recurrentTsSize: int)

  /** cy_ml_regression_info_t of the legacy layout. */
  datatype RegressionInfo = RegressionInfo(nOutClasses: int, scratchMem: int, persistentMem: int,
                                           recurrentTsSize: int, modelSz: int)

  /**
   * The model information the handshake sends: the weights' length and the
   * output size, memory needs and recurrent series length from the model
   * information.
   */
  function RegressionInfoFor(info: ModelInfo, modelSz: int): (r: RegressionInfo)
    ensures r.modelSz == modelSz && r.nOutClasses == info.outputSize
    ensures r.persistentMem == info.persistentMem && r.scratchMem == info.scratchMem
    ensures r.recurrentTsSize == info.recurrentTsSize
  {
    RegressionInfo(info.outputSize, info.scratchMem, info.persistentMem, info.recurrentTsSize, modelSz)
  }

  // ---------------------------------------------------------------------
  // The dataset header.

  /** sizeof(cy_ml_dataset_header_t): six int fields. */
  const HeaderLength: nat := 24

  /** The header as its bytes lay it out: n_ex, in_sz, q_fixed, input_size, output_size, baud_rate. */
  function DecodeHeader(bytes: seq<u8>): (h: DatasetHeader)
    requires |bytes| >= HeaderLength
    ensures h.dataType.None?
  {
    DatasetHeader(None, Int32At(bytes, 0), Int32At(bytes, 4), Int32At(bytes, 8),
                  Int32At(bytes, 12), Int32At(bytes, 16), Int32At(bytes, 20))
  }

  /** Whether a header has the legacy layout and every field fits an int32_t. */
  predicate InRange(h: DatasetHeader)
  {
    h.dataType.None?
    && -0x8000_0000 <= h.nEx < 0x8000_0000 && -0x8000_0000 <= h.inSz < 0x8000_0000
    && -0x8000_0000 <= h.qFixed < 0x8000_0000 && -0x8000_0000 <= h.inputSize < 0x8000_0000
    && -0x8000_0000 <= h.outputSize < 0x8000_0000 && -0x8000_0000 <= h.baudRate < 0x8000_0000
  }

  /** The bytes a host sends for a header. */
  function EncodeHeader(h: DatasetHeader): (bytes: seq<u8>)
    requires InRange(h)
    ensures |bytes| == HeaderLength
  {
    EncodeInt32(h.nEx) + EncodeInt32(h.inSz) + EncodeInt32(h.qFixed)
    + EncodeInt32(h.inputSize) + EncodeInt32(h.outputSize) + EncodeInt32(h.baudRate)
  }

  /** The device reads back every field the host sent. */
  lemma DecodeEncodeHeader(h: DatasetHeader)
    requires InRange(h)
    ensures DecodeHeader(EncodeHeader(h)) == h
  {
    var e: seq<seq<u8>> := [EncodeInt32(h.nEx), EncodeInt32(h.inSz), EncodeInt32(h.qFixed),
                            EncodeInt32(h.inputSize), EncodeInt32(h.outputSize), EncodeInt32(h.baudRate)];
    var bytes := EncodeHeader(h);
    Int32RoundTrip(h.nEx, [], bytes[4..]);
    Int32RoundTrip(h.inSz, bytes[..4], bytes[8..]);
    Int32RoundTrip(h.qFixed, bytes[..8], bytes[12..]);
    Int32RoundTrip(h.inputSize, bytes[..12], bytes[16..]);
    Int32RoundTrip(h.outputSize, bytes[..16], bytes[20..]);
    Int32RoundTrip(h.baudRate, bytes[..20], []);
    assert [] + bytes[..4] + bytes[4..] == bytes;
    assert bytes[..4] + bytes[4..8] + bytes[8..] == bytes;
    assert bytes[..8] + bytes[8..12] + bytes[12..] == bytes;
    assert bytes[..12] + bytes[12..16] + bytes[16..] == bytes;
    assert bytes[..16] + bytes[16..20] + bytes[20..] == bytes;
    assert bytes[..20] + bytes[20..] + [] == bytes;
    assert bytes[..4] == e[0] && bytes[4..8] == e[1] && bytes[8..12] == e[2];
    assert bytes[12..16] == e[3] && bytes[16..20] == e[4] && bytes[20..] == e[5];
  }

  // ---------------------------------------------------------------------
  // The stream object.

  /** How the model's init ends: its status, the memory it takes from the heap, and its model information. */
  datatype ModelInit = ModelInit(status: Status, bytes: nat, info: ModelInfo)

  /** The stream task's UART results: the handshake, one entry per frame, then ML_COMPLETED and sending ML_DONE. */
  datatype TaskIo = TaskIo(handshake: HandshakeIo, frames: seq<FrameIo>, completedRx: seq<RxEvent>, doneSent: Status)

  /**
   * How init ends: BAD_ARG for a missing interface or model binary or a bus
   * other than the UART, the model's own failure, ALLOC_ERR when the model,
   * the output buffer or the frame buffer does not fit, success otherwise.
   */
  function InitOutcome(iface: Option<Interface>, modelBin: Ptr, mi: ModelInit, unit: nat, avail: int): Status
  {
    if iface.None? || modelBin.Null? then BadArg
    else if iface.value.bus != Uart then BadArg
    else if mi.status != Success then mi.status
    else if !AllFit([mi.bytes, UnitBytes(mi.info.outputSize, unit), UnitBytes(mi.info.inputSize, unit)], avail)
    then AllocErr
    else Success
  }

  /**
   * What the stream task promises once the dataset header has arrived: a header
   * that does not match the model and the build ends it with BAD_ARG and
   * nothing else done; otherwise fixed-point builds set the input Q format,
   * `done` frames went through, results went back after exactly the
   * scheduled ones among them, and the first frame that failed, or else the
   * closing exchange, decides the status.
   */
  ghost predicate SessionOutcome(info: ModelInfo, unit: nat, h: DatasetHeader, sendsQ: bool, frames: seq<FrameIo>,
                                 completedRx: seq<RxEvent>, doneSent: Status, status: Status, emitted: seq<int>,
                                 qBits: Option<int>, done: nat)
    requires done <= |frames| && h.nEx <= |frames|
  {
    if CheckHeader(h, info.inputSize, unit, unit) != Success then
      status == BadArg && emitted == [] && qBits.None?
    else
      qBits == (if sendsQ then Some(h.qFixed) else None)
      && emitted == Schedule(done, info.recurrentTsSize)
      && AllOk(frames, done, info.recurrentTsSize, sendsQ, UnitBytes(h.inSz, unit), RxTimeout(h.inSz, unit))
      && (if done < h.nEx
          then status == FrameStatus(frames[done], EmitsAt(done, info.recurrentTsSize), sendsQ,
                                     UnitBytes(h.inSz, unit), RxTimeout(h.inSz, unit))
          else status == ClosingOutcome(completedRx, doneSent))
  }

  /** The static stream object. */
  class StreamObject {
    var modelObject: Ptr
    var modelBin: Ptr
    var out: Ptr
    var rxBuff: Ptr
    var profiling: ProfileConfig
    /** The model information of the initialised model. */
    var info: ModelInfo
    /** The length of the model's weights, fixed when the application is built. */
    var modelSz: int
    /** sizeof(MTB_ML_DATA_T) of the build. */
    var unit: nat

    constructor()
      ensures modelObject == Null && modelBin == Null && out == Null && rxBuff == Null
    {
      modelObject := Null;
      modelBin := Null;
      out := Null;
      rxBuff := Null;
      profiling := ProfileDisable;
      info := ModelInfo(0, 0, 0, 0, 0);
      modelSz := 0;
      unit := 0;
    }

    /** The stream owns the model's memory, the output buffer and the frame buffer. */
    ghost predicate Valid(heap: Heap)
      reads this, heap
    {
      heap.Live(modelObject) && heap.Live(out) && heap.Live(rxBuff)
      && modelObject != out && modelObject != rxBuff && out != rxBuff
      && heap.blocks[out.id] == UnitBytes(info.outputSize, unit)
      && heap.blocks[rxBuff.id] == UnitBytes(info.inputSize, unit)
    }

    /**
     * The buffer allocations of init, after the model: the output buffer,
     * then the frame buffer. When the output buffer does not fit the model
     * is released; when the frame buffer does not fit the model and then
     * the output buffer are.
     */
    static method TakeBuffers(heap: Heap, model: Ptr, outBytes: int, rxBytes: int)
      returns (output: Ptr, rx: Ptr, ok: bool)
      requires heap.Valid() && heap.Live(model)
      modifies heap
      ensures heap.Valid()
      ensures ok <==> AllFit([outBytes, rxBytes], old(heap.avail))
      ensures !ok ==>
        heap.blocks == old(heap.blocks) - {model.id} && heap.avail == old(heap.avail) + old(heap.blocks)[model.id]
      ensures ok ==>
        output.HeapBlock? && rx.HeapBlock? && output.id !in old(heap.blocks) && rx.id !in old(heap.blocks)
        && output != rx
        && heap.blocks == old(heap.blocks)[output.id := outBytes][rx.id := rxBytes]
        && heap.avail == old(heap.avail) - outBytes - rxBytes
    {
      AllFitPair(outBytes, rxBytes, old(heap.avail));
      rx := Null;
      output := heap.Alloc(outBytes);
      if output.Null? {
        heap.Free(model);
        return output, rx, false;
      }
      rx := heap.Alloc(rxBytes);
      if rx.Null? {
        heap.Free(model);
        heap.Free(output);
        return output, rx, false;
      }
      ok := true;
    }

    /**
     * The three allocations of init in turn: the model object, the output
     * buffer and the frame buffer. Either all three are taken or the heap is
     * as it was.
     */
    static method TakeSession(heap: Heap, modelBytes: int, outBytes: int, rxBytes: int)
      returns (model: Ptr, output: Ptr, rx: Ptr, ok: bool)
      requires heap.Valid()
      modifies heap
      ensures heap.Valid()
      ensures ok <==> AllFit([modelBytes, outBytes, rxBytes], old(heap.avail))
      ensures !ok ==> heap.blocks == old(heap.blocks) && heap.avail == old(heap.avail)
      ensures ok ==>
        model.HeapBlock? && output.HeapBlock? && rx.HeapBlock?
        && model.id !in old(heap.blocks) && output.id !in old(heap.blocks) && rx.id !in old(heap.blocks)
        && model != output && model != rx && output != rx
        && heap.blocks == old(heap.blocks)[model.id := modelBytes][output.id := outBytes][rx.id := rxBytes]
        && heap.avail == old(heap.avail) - modelBytes - outBytes - rxBytes
    {
      assert [modelBytes, outBytes, rxBytes][1..] == [outBytes, rxBytes];
      output, rx := Null, Null;
      model := heap.Alloc(modelBytes);
      if model.Null? {
        return model, output, rx, false;
      }
      output, rx, ok := TakeBuffers(heap, model, outBytes, rxBytes);
      if !ok {
        assert heap.blocks == old(heap.blocks);
      }
    }

    /**
     * mtb_ml_stream_init: check the arguments, initialise the model,
     * allocate the output buffer and then the frame buffer, releasing what
     * was taken before when one of them fails, and apply the profiling
     * configuration.
     */
    method Init(heap: Heap, iface: Option<Interface>, profileCfg: ProfileConfig, bin: Ptr, mi: ModelInit,
                weightsLength: int, dataUnit: nat)
      returns (status: Status)
      requires heap.Valid()
      modifies this, heap
      ensures heap.Valid()
      ensures status == InitOutcome(iface, bin, mi, dataUnit, old(heap.avail))
      ensures status != Success ==> heap.blocks == old(heap.blocks) && heap.avail == old(heap.avail)
      ensures status == Success ==>
        Valid(heap)
        && modelObject.id !in old(heap.blocks) && out.id !in old(heap.blocks) && rxBuff.id !in old(heap.blocks)
        && heap.blocks == old(heap.blocks)[modelObject.id := mi.bytes]
                            [out.id := UnitBytes(mi.info.outputSize, dataUnit)]
                            [rxBuff.id := UnitBytes(mi.info.inputSize, dataUnit)]
        && heap.avail == old(heap.avail) - mi.bytes - UnitBytes(mi.info.outputSize, dataUnit)
                         - UnitBytes(mi.info.inputSize, dataUnit)
        && modelBin == bin && info == mi.info && modelSz == weightsLength && unit == dataUnit
        && profiling == profileCfg
    {
      if iface.None? || bin.Null? {
        return BadArg;
      }
      if iface.value.bus != Uart {
        return BadArg;
      }
      if mi.status != Success {
        return mi.status;
      }
      var model, output, rx, ok := TakeSession(heap, mi.bytes, UnitBytes(mi.info.outputSize, dataUnit),
                                               UnitBytes(mi.info.inputSize, dataUnit));
      if !ok {
        return AllocErr;
      }
      modelObject := model;
      modelBin := bin;
      info := mi.info;
      modelSz := weightsLength;
      unit := dataUnit;
      out := output;
      rxBuff := rx;
      profiling := profileCfg;
      status := Success;
    }

    /** mtb_ml_stream_deinit: release the model, the output buffer and the frame buffer. */
    method Deinit(heap: Heap)
      requires heap.Valid() && Valid(heap)
      modifies heap
      ensures heap.Valid()
      ensures heap.blocks == old(heap.blocks) - {modelObject.id, out.id, rxBuff.id}
      ensures heap.avail == old(heap.avail) + old(heap.blocks)[modelObject.id] + old(heap.blocks)[out.id]
                            + old(heap.blocks)[rxBuff.id]
    {
      heap.Free(modelObject);
      heap.Free(out);
      heap.Free(rxBuff);
    }

    /** Whatever init takes, deinit gives back. */
    method InitThenDeinit(heap: Heap, iface: Option<Interface>, profileCfg: ProfileConfig, bin: Ptr, mi: ModelInit,
                          weightsLength: int, dataUnit: nat)
      returns (status: Status)
      requires heap.Valid()
      modifies this, heap
      ensures status == InitOutcome(iface, bin, mi, dataUnit, old(heap.avail))
      ensures heap.blocks == old(heap.blocks) && heap.avail == old(heap.avail)
    {
      status := Init(heap, iface, profileCfg, bin, mi, weightsLength, dataUnit);
      if status == Success {
        Deinit(heap);
      }
    }

    /**
     * What the stream task does once the header has arrived: check it against the
     * model information and the build, set the input Q format in
     * fixed-point builds, run the frame loop and close the session.
     */
    method Stream(h: DatasetHeader, sendsQ: bool, frames: seq<FrameIo>, completedRx: seq<RxEvent>, doneSent: Status,
                  rxData: array<u8>)
      returns (status: Status, emitted: seq<int>, qBits: Option<int>, ghost done: nat)
      requires UnitBytes(info.inputSize, unit) <= rxData.Length
      requires h.nEx <= |frames|
      requires forall j :: 0 <= j < |frames| ==> UnitBytes(h.inSz, unit) <= |frames[j].bytes|
      modifies rxData
      ensures done <= |frames|
      ensures SessionOutcome(info, unit, h, sendsQ, frames, completedRx, doneSent, status, emitted, qBits, done)
    {
      emitted, qBits, done := [], None, 0;
      status := CheckHeader(h, info.inputSize, unit, unit);
      if status != Success {
        return;
      }
      if sendsQ {
        qBits := Some(h.qFixed);
      }
      status, done, emitted := Frames(h.nEx, UnitBytes(h.inSz, unit), RxTimeout(h.inSz, unit),
                                      info.recurrentTsSize, sendsQ, frames, rxData);
      if status != Success {
        return;
      }
      status := Closing(completedRx, doneSent);
    }

    /**
     * mtb_ml_stream_task: the handshake, then the checked session. `rxData`
     * is the frame buffer's memory; `emitted` are the frames after which a
     * result went back; `qBits` is the input Q format that was set.
     */
    method Task(sendsQ: bool, io: TaskIo, rxData: array<u8>)
      returns (status: Status, emitted: seq<int>, qBits: Option<int>, ghost done: nat)
      requires |io.handshake.headerBytes| >= HeaderLength
      requires UnitBytes(info.inputSize, unit) <= rxData.Length
      requires DecodeHeader(io.handshake.headerBytes).nEx <= |io.frames|
      requires forall j :: 0 <= j < |io.frames| ==>
        UnitBytes(DecodeHeader(io.handshake.headerBytes).inSz, unit) <= |io.frames[j].bytes|
      modifies rxData
      ensures HandshakeOutcome(io.handshake, HeaderLength) != Success ==>
        status == HandshakeOutcome(io.handshake, HeaderLength) && emitted == [] && qBits.None?
      ensures HandshakeOutcome(io.handshake, HeaderLength) == Success ==>
        done <= |io.frames|
        && SessionOutcome(info, unit, DecodeHeader(io.handshake.headerBytes), sendsQ, io.frames, io.completedRx,
                          io.doneSent, status, emitted, qBits, done)
    {
      var header := new u8[HeaderLength];
      status := Handshake(io.handshake, header);
      if status != Success {
        return status, [], None, 0;
      }
      var h := DecodeHeader(header[..]);
      assert header[..] == io.handshake.headerBytes[..HeaderLength];
      assert h == DecodeHeader(io.handshake.headerBytes);
      status, emitted, qBits, done := Stream(h, sendsQ, io.frames, io.completedRx, io.doneSent, rxData);
    }
  }
}
