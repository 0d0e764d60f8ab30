# ModusToolbox ML middleware: a verified model of its core

This project models, in Dafny, the core of Infineon's ModusToolbox machine-learning
middleware (`ml-middleware`).
- **Numeric utilities.** Float and fixed-point conversion, affine quantisation for TFLM, and arg-max search.
- **Model runtimes, one per engine.** The Infineon fixed-point inference engine (IFX), TensorFlow Lite Micro with an interpreter (TFLM), and interpreter-less TFLM through its generated RMF API. Each runtime has an older and a newer release where the repository ships both. For each one the model covers:
  - initialisation and its rollback on every failure;
  - de-initialisation;
  - inference;
  - the profiling counters;
  - the accessors.
- **NNLite NPU cycle accumulator.**
- **UART streaming-validation task.** It exchanges protocol tokens with a host, reads a dataset header, receives frames, runs inference on each frame and sends the results back.

The modules are:

| module | file | models |
|---|---|---|
| `Common` | common.dfy | result codes, profiling bits, build configuration, machine integers, an allocation-tracking heap, C pointers |
| `Conversions` | conversions.dfy | `source/mtb_ml_utils.c` |
| `LegacyConversions` | legacy_conversions.dfy | the earlier `mtb_ml_utils.c` |
| `IfxModel` | ifx_model.dfy | `source/COMPONENT_ML_IFX/mtb_ml_model.c` |
| `LegacyIfxModel` | legacy_ifx_model.dfy | the earlier `mtb_ml_model.c` |
| `Profiling` | profiling.dfy | the per-run cycle accounting shared by the TFLM runtimes |
| `TflmModel` | tflm_model.dfy | `source/COMPONENT_ML_TFLM/mtb_ml_model.cpp` |
| `TflmLessModel` | tflm_less_model.dfy | `source/COMPONENT_ML_TFLM_LESS/mtb_ml_model.cpp` |
| `RmfApi` | rmf_api.dfy | the tensor-shape and input-slicing logic of the interpreter-less runtimes |
| `TflmInterpreterModel` | tflm_interpreter_model.dfy | `source/COMPONENT_ML_TFLM_INTERPRETER/mtb_ml_model.cpp` |
| `TflmInterpreterLessModel` | tflm_interpreter_less_model.dfy | `source/COMPONENT_ML_TFLM_INTERPRETER_LESS/mtb_ml_model.cpp` |
| `NnLite` | nnlite.dfy | `source/mtb_ml_nnlite.c` |
| `StreamCore` | stream_core.dfy | the control logic both stream front ends share |
| `Stream` | stream.dfy | `source/COMPONENT_ML_MW_STREAM/mtb_ml_stream.c` |
| `LegacyStream` | legacy_stream.dfy | the earlier `mtb_ml_stream.c` |

**Memory.** `Common.Heap` is a class that records the live blocks (id ↦ size) and the bytes still available.
- `malloc`/`calloc` succeed exactly when the request fits.
- C++ `new` of a wrapper object always succeeds.
- `free` accepts NULL or a live block.

Each runtime object is a class whose fields are the C struct's fields. Every `Init` is stated against a pure `InitOutcome` function of the inputs. Every `Init` also promises three things:
- on any failure, the heap and the caller's `*object` are exactly as before;
- on success, the heap gains exactly the blocks the new object owns;
- `InitThenDeinit` returns the heap to where it started.

**Engines and the UART.** The inference engines, the TFLM interpreter and the UART driver are not modelled. Each is represented by the values it returns, passed in as parameters: an engine's init result, an inference status, time stamps, getc/read results.

**Floats.** Floating-point values are exact reals.

## Model

| member | source | states |
|---|---|---|
| Common.ErrorNumber | include/mtb_ml_common.h:140-150 | a result's error number is 0 exactly for success and at most 10 |
| Common.ErrorNumberInjective | include/mtb_ml_common.h:140-150 | distinct result codes carry distinct error numbers |
| Common.DataBytes | source/COMPONENT_ML_TFLM/mtb_ml_model_defs.h:54-59 | `sizeof(MTB_ML_DATA_T)` is 4 exactly in float builds and 1 exactly in the 8x8 integer build |
| Conversions.Trunc | source/mtb_ml_utils.c:242-249 | a float-to-int cast truncates toward zero: the result is within one unit of the value, on the zero side |
| Conversions.RoundHalfAway | source/mtb_ml_utils.c:242-243 | rounding lands within half a unit of the value, halves going away from zero |
| Conversions.Saturate | source/mtb_ml_utils.c:244-249 | saturation returns a representable value: the input itself when it fits, the bound it crossed otherwise, and in every case the representable value nearest the input |
| Conversions.QToFixed | source/mtb_ml_utils.c:242-250 | one element of float-to-Q conversion always lands in the signed range of the target width |
| Conversions.AffineToInt8 | source/mtb_ml_utils.c:325-332 | one element of affine quantisation always lands in int8 |
| Conversions.QToFixedMonotone | source/mtb_ml_utils.c:242-250 | Q-format quantisation preserves order |
| Conversions.AffineToInt8Monotone | source/mtb_ml_utils.c:322-335 | affine quantisation preserves order for a positive scale |
| Conversions.QToFixedInvertsFixedToReal | source/mtb_ml_utils.c:242-250 | every representable Q value survives dequantise-then-quantise unchanged |
| Conversions.QToFixedWithinHalfStep | source/mtb_ml_utils.c:242-250 | a float inside the representable range comes back from quantise-then-dequantise within half a quantisation step |
| Conversions.AffineToInt8InvertsAffineToReal | source/mtb_ml_utils.c:322-335 | every int8 value survives affine dequantise-then-quantise unchanged |
| Conversions.AffineToInt8WithinHalfStep | source/mtb_ml_utils.c:322-335 | a float whose affine image lies within half a step of the int8 range comes back from quantise-then-dequantise within scale / 2 |
| Conversions.QuantisationExamples | source/mtb_ml_utils.c:242-250 | Q7 maps 0.5 to 64 and -0.5 to -64; 2.0 saturates to 127; Q15 -3.0 saturates to -32768; 1.0 with scale 0.1 and zero point 10 maps to 20 |
| Conversions.FindMax | source/mtb_ml_utils.c:97-120 | -1 exactly for a null array or a non-positive size; otherwise an index whose element is at least every other and strictly greater than all before it (the first maximum) |
| Conversions.FindMaxInt32 | source/mtb_ml_utils.c:131-154 | the same contract over int32 elements |
| Conversions.MaxQ | source/mtb_ml_utils.c:169 | the largest accepted Q factor is one less than the bit width of `MTB_ML_DATA_T` |
| Conversions.DivideOne | source/mtb_ml_utils.c:68 | one element step writes the input element divided by 2^q and no other output element; the input elements after it, even when input and output are the same array, still hold their original values |
| Conversions.IntToFlt | source/mtb_ml_utils.c:51-86 | BAD_ARG exactly when a pointer is null, the size is not positive or q is outside 0..max_q, with the output untouched; otherwise every element is `x / 2^q` and nothing past `size` changes (four-at-a-time blocks plus the tail) |
| Conversions.NormAsWritten | source/mtb_ml_utils.c:62 | `(float)(1 << q)` in 32-bit two's complement lies in the int32 range |
| Conversions.NormAsWrittenExactBelow31 | source/mtb_ml_utils.c:62 | below q = 31 the shifted norm is exactly 2^q |
| Conversions.IntToFltSignFlipAtQ31 | source/mtb_ml_utils.c:56-62 | a float build (where `max_q` is 31, line 169) accepts q = 31, where the shifted norm is -2^31 and dividing by it flips the sign, unlike the intended 2^31; the earlier release's macro (mtb_ml_utils.c:25-33) computes the same norm |
| Conversions.ConvertIntToFlt | source/mtb_ml_utils.c:160-172 | `mtb_ml_utils_convert_int_to_flt` with the Q bound set by the build's data width and the intended division by 2^q |
| Conversions.QuantizeBlocks | source/mtb_ml_utils.c:200-237 | the CMSIS-DSP loop shape (four per block, then `size % 4`) converts every one of the first `size` elements and touches nothing else |
| Conversions.QuantizeEach | source/mtb_ml_utils.c:239-252 | the element-by-element loop converts every one of the first `size` elements and touches nothing else |
| Conversions.FltToFixed | source/mtb_ml_utils.c:185-256 | float-to-Q conversion rejects null, non-positive size and q outside 0..bits-1 with BAD_ARG and no write; otherwise out[i] is the rounded, saturated `x * 2^q` |
| Conversions.FltToInt8 | source/mtb_ml_utils.c:185-256 | the same for int8 with q 0..7 |
| Conversions.FltToInt16 | source/mtb_ml_utils.c:352-424 | the same for int16 with q 0..15 |
| Conversions.TflmFltToInt8 | source/mtb_ml_utils.c:270-339 | BAD_ARG exactly for a null pointer, non-positive size or non-positive scale; otherwise out[i] is `x / scale + zero_point`, rounded and saturated to int8 |
| Conversions.AffineAll | source/mtb_ml_utils.c:285-289 | element i of the result is the int8 image of element i of the input |
| Conversions.PackInt8 | source/mtb_ml_utils.c:289 | storing int8 value k into byte k of an int16 buffer, for each k below n, gives exactly `Packed` of the old contents |
| Conversions.Packed | source/mtb_ml_utils.c:289 | elements whose bytes the stores do not reach keep their value |
| Conversions.PackedReadsBack | source/mtb_ml_utils.c:289 | every stored int8 value reads back unchanged from its byte of the int16 buffer |
| Conversions.TflmQuantizeInt16AsWritten | source/mtb_ml_utils.c:517 | in a TFLM build with int16 data, as written: BAD_ARG exactly as for the int8 conversion, and otherwise the int8 results packed two to an element of the int16 buffer |
| Conversions.PackedQuantizeExample | source/mtb_ml_utils.c:517 | inputs [0.0, 1.0] with scale 1 and zero point 0 leave element 0 at 256 and element 1 untouched, where one value per element gives [0, 1] |
| Conversions.QuantBits | source/mtb_ml_utils.c:437-451 | an integer build's element width is 8 or 16 bits, eight times its byte size |
| Conversions.ConvertFltToInt | source/mtb_ml_utils.c:437-451 | float builds succeed without writing; integer builds convert to the build's width with its Q bound |
| Conversions.ModelQuantize | source/mtb_ml_utils.c:505-522 | BAD_ARG for a missing object or buffer; float builds succeed untouched; IFX builds quantise with the object's input Q bits; TFLM builds quantise affinely with the input scale and zero point; on success the elements past input_size are untouched. In a TFLM build with int16 data this is the corrected behaviour, one value per element (see Findings) |
| Conversions.ModelDequantize | source/mtb_ml_utils.c:533-564 | BAD_ARG for a missing object or buffer; IFX builds divide by 2^output Q; TFLM builds compute `(v - zero_point) * scale`; float builds copy |
| LegacyConversions.FindMax | mtb_ml_utils.c:68-91 | the earlier arg-max: -1 exactly for null or non-positive size, otherwise the first maximum |
| LegacyConversions.FindMaxInt32 | mtb_ml_utils.c:102-125 | the same over int32 |
| LegacyConversions.IntToFlt | mtb_ml_utils.c:20-57 | the earlier INT_TO_FLT, used by the int8, int16 and MTB_ML_DATA_T wrappers alike: the Q bound follows the build's data width, BAD_ARG leaves the output untouched, success writes `x / 2^q`; this is the intended division, which the code misses at q = 31 in a float build (see Findings) |
| LegacyConversions.Int8QBoundFollowsBuild | mtb_ml_utils.c:24-27 | through the shared macro, which takes its bound from the build's data type, the int8 wrapper accepts q up to 7 in an 8x8 build but up to 15 in the 16-bit builds |
| LegacyConversions.FltToInt8 | mtb_ml_utils.c:186-240 | earlier float-to-int8: q 0..7, BAD_ARG without writing, otherwise rounded and saturated |
| LegacyConversions.FltToInt16 | mtb_ml_utils.c:253-308 | earlier float-to-int16: q 0..15, same shape |
| LegacyConversions.ConvertFltToInt | mtb_ml_utils.c:321-335 | earlier dispatcher: float builds succeed untouched, integer builds use their width |
| IfxModel.ConvertProfileConfig | source/COMPONENT_ML_IFX/mtb_ml_model.c:53-73 | DISABLE maps to the engine's disable, and each single setting maps to its engine counterpart |
| IfxModel.ConvertProfileConfigInverts | source/COMPONENT_ML_IFX/mtb_ml_model.c:53-73 | every engine setting is reached from exactly its own middleware value |
| IfxModel.ConvertProfileConfigRejectsOthers | source/COMPONENT_ML_IFX/mtb_ml_model.c:53-73 | any value that is not one of the six, bit combinations included, disables profiling |
| IfxModel.CombinedConfigDisables | source/COMPONENT_ML_IFX/mtb_ml_model.c:53-73 | model profiling together with the per-frame log is such a value |
| IfxModel.Runtime.constructor | source/COMPONENT_ML_IFX/mtb_ml_model.c:91 | a calloc'ed object: every field zero or NULL |
| IfxModel.Runtime.Release | source/COMPONENT_ML_IFX/mtb_ml_model.c:172-189 | the error path frees exactly the blocks the object owns, giving back their bytes |
| IfxModel.Runtime.TakePersistent | source/COMPONENT_ML_IFX/mtb_ml_model.c:119-132 | the persistent buffer is allocated when the caller gave none and fails only when it does not fit; a caller buffer is used as given |
| IfxModel.Runtime.TakeScratch | source/COMPONENT_ML_IFX/mtb_ml_model.c:135-148 | the same for the scratch buffer |
| IfxModel.OutputRequest | source/COMPONENT_ML_IFX/mtb_ml_model.c:151 | `output_size * sizeof(MTB_ML_DATA_T)` as a 32-bit size_t: exact when the product fits, otherwise congruent to it modulo 2^32 |
| IfxModel.OutputRequestWraps | source/COMPONENT_ML_IFX/mtb_ml_model.c:151 | in a float build an output size of 2^30 asks malloc for 0 bytes and 2^30 + 1 for 4 bytes |
| IfxModel.Runtime.TakeOutput | source/COMPONENT_ML_IFX/mtb_ml_model.c:151-156 | the output buffer is allocated and fails exactly when it does not fit |
| IfxModel.Runtime.TakeBuffers | source/COMPONENT_ML_IFX/mtb_ml_model.c:118-156 | the three allocations succeed exactly when all requests fit in turn, taking their total; each request is the size_t value malloc receives, the output one wrapped as OutputRequest says |
| IfxModel.InitOutcome | source/COMPONENT_ML_IFX/mtb_ml_model.c:85-170 | init ends in SUCCESS, BAD_ARG, ALLOC_ERR or BAD_MODEL, in the order the code checks; ALLOC_ERR is decided on the 32-bit size_t requests, so a wrapped output size can succeed |
| IfxModel.Init | source/COMPONENT_ML_IFX/mtb_ml_model.c:78-190 | the status is InitOutcome; any failure leaves heap and `*object` as they were; success gives a fresh, consistent object owning exactly the new blocks, filled from the parsed model, its footprint grown by the 32-bit size_t requests |
| IfxModel.NewRuntime | source/COMPONENT_ML_IFX/mtb_ml_model.c:90-102 | the object is allocated exactly when it fits (no change otherwise), zeroed, named after the model, with the model size the sum of the blob sizes; its footprint is the object block alone |
| IfxModel.Complete | source/COMPONENT_ML_IFX/mtb_ml_model.c:104-190 | after the object is allocated: parse, buffers and engine init, rolled back on failure |
| IfxModel.Finish | source/COMPONENT_ML_IFX/mtb_ml_model.c:118-189 | buffers and engine init after a successful parse, rolled back on failure, leaving the parsed fields alone |
| IfxModel.Deinit | source/COMPONENT_ML_IFX/mtb_ml_model.c:195-219 | BAD_ARG with no change for NULL; otherwise frees exactly the object's blocks |
| IfxModel.InitThenDeinit | source/COMPONENT_ML_IFX/mtb_ml_model.c:78-219 | init followed by de-init leaves the heap exactly as it was |
| IfxModel.Run | source/COMPONENT_ML_IFX/mtb_ml_model.c:224-251 | BAD_ARG for NULL object or input; otherwise the engine's result is reported, with a failure code kept in lib_error |
| IfxModel.GetInputSize | source/COMPONENT_ML_IFX/mtb_ml_model.c:256-266 | 0 for NULL, the input size otherwise |
| IfxModel.GetOutput | source/COMPONENT_ML_IFX/mtb_ml_model.c:271-289 | BAD_ARG exactly for NULL, with nothing written; otherwise each non-null out-pointer receives the output buffer or its size |
| IfxModel.GetRecurrentTimeSeriesFrames | source/COMPONENT_ML_IFX/mtb_ml_model.c:294-304 | 0 for NULL, the model's recurrent series length otherwise |
| IfxModel.RnnStateControl | source/COMPONENT_ML_IFX/mtb_ml_model.c:309-324 | SUCCESS exactly when the object exists and the engine accepts; an engine failure is kept in lib_error; the frame lets no other field of the object change |
| IfxModel.GetInferenceObject | source/COMPONENT_ML_IFX/mtb_ml_model.c:329-339 | NULL for NULL, the engine handle otherwise |
| IfxModel.ProfileConfig | source/COMPONENT_ML_IFX/mtb_ml_model.c:344-354 | BAD_ARG exactly for NULL; otherwise the engine receives the converted setting |
| IfxModel.SetInputQFractionBits | source/COMPONENT_ML_IFX/mtb_ml_model.c:374-384 | BAD_ARG exactly for NULL; otherwise stores the input Q bits; the frame lets no other field of the object change |
| IfxModel.GetOutputQFractionBits | source/COMPONENT_ML_IFX/mtb_ml_model.c:389-401 | 0 for NULL or a float build, the engine's output Q bits otherwise |
| IfxModel.QFractionBitsRoundTrip | source/COMPONENT_ML_IFX/mtb_ml_model.c:374-401 | with the run's copy of the input Q into the output Q (line 234), in an integer build where the engine passes the input Q through, the output Q read after a run is the input Q that was set |
| LegacyIfxModel.MemoryArea | mtb_ml_model.c:42-57 | an address is named RAM, FLASH, EEPROM or unknown exactly by the first region, in that order, that contains it |
| LegacyIfxModel.InRangeHalfOpen | mtb_ml_model.c:25 | the region test is the half-open interval `[base, base + size)` |
| LegacyIfxModel.MemoryAreaFindsRegion | mtb_ml_model.c:42-57 | for non-overlapping regions, an address inside a region is named by that region |
| LegacyIfxModel.TopRegionIsEmpty | mtb_ml_model.c:25 | a region reaching past 2^32 contains nothing, because the end address wraps |
| LegacyIfxModel.Runtime.constructor | mtb_ml_model.c:131 | a calloc'ed object: every field zero or NULL |
| LegacyIfxModel.Runtime.Release | mtb_ml_model.c:192-205 | the error path frees exactly the blocks the object owns |
| LegacyIfxModel.Runtime.TakePersistent | mtb_ml_model.c:147-160 | the persistent buffer is allocated when none was given, failing only when it does not fit |
| LegacyIfxModel.Runtime.TakeScratch | mtb_ml_model.c:163-176 | the same for scratch |
| LegacyIfxModel.Runtime.TakeBuffers | mtb_ml_model.c:146-176 | the persistent and then the scratch step succeed exactly when the requests fit one after another; the object then owns exactly the allocated buffers, its footprint grows by their total, and a given buffer is borrowed |
| LegacyIfxModel.LegacyInitOutcome | mtb_ml_model.c:125-190 | the earlier init ends in SUCCESS, BAD_ARG, ALLOC_ERR or BAD_MODEL, in the order the code checks |
| LegacyIfxModel.Init | mtb_ml_model.c:118-206 | the status is the outcome; any failure leaves heap and `*object` unchanged; success owns exactly the new blocks |
| LegacyIfxModel.Finish | mtb_ml_model.c:146-205 | buffers and engine init, rolled back on failure |
| LegacyIfxModel.Deinit | mtb_ml_model.c:211-231 | BAD_ARG with no change for NULL; otherwise frees exactly the object's blocks |
| LegacyIfxModel.InitThenDeinit | mtb_ml_model.c:118-231 | init followed by de-init leaves the heap as it was |
| LegacyIfxModel.Run | mtb_ml_model.c:236-263 | BAD_ARG for NULL object, input or output; otherwise the engine's result, a failure kept in the error field |
| LegacyIfxModel.GetInputSize | mtb_ml_model.c:268-278 | 0 for NULL, the model's input size otherwise |
| LegacyIfxModel.GetOutputSize | mtb_ml_model.c:283-293 | 0 for NULL, the model's output size otherwise |
| LegacyIfxModel.GetRecurrentTimeSeriesFrames | mtb_ml_model.c:298-308 | 0 for NULL, the recurrent series length otherwise |
| LegacyIfxModel.RnnStateControl | mtb_ml_model.c:313-328 | SUCCESS exactly when the object exists and the engine accepts; an engine failure is kept in ml_error; the frame lets no other field of the object change |
| LegacyIfxModel.GetInferenceObject | mtb_ml_model.c:333-343 | NULL for NULL, the engine handle otherwise |
| LegacyIfxModel.ProfileConfig | mtb_ml_model.c:348-358 | BAD_ARG exactly for NULL; otherwise the value goes to the engine unconverted |
| LegacyIfxModel.SetInputQFractionBits | mtb_ml_model.c:379-389 | BAD_ARG exactly for NULL; otherwise stores the input Q bits; the frame lets no other field of the object change |
| LegacyIfxModel.GetOutputQFractionBits | mtb_ml_model.c:394-403 | 0 for NULL, the output Q bits otherwise |
| LegacyIfxModel.QFractionBitsRoundTrip | mtb_ml_model.c:236-263 | with the setter and getter at lines 379-403, the output Q read after a pass-through run is the input Q that was set |
| Profiling.Observe | source/COMPONENT_ML_TFLM/mtb_ml_model.cpp:362-368 | the peak never drops and covers the new count, the peak frame moves only on a strictly larger count, the sum grows by the count modulo 2^64 |
| Profiling.NormNpuCycles | source/COMPONENT_ML_TFLM/mtb_ml_model.cpp:345 | the NPU count converted to CPU cycles: the largest whole number of CPU cycles whose NPU equivalent does not exceed the count |
| Profiling.NormNpuCyclesMonotone | source/COMPONENT_ML_TFLM/mtb_ml_model.cpp:345 | a larger NPU count or a slower NPU clock never gives a smaller normalised share |
| Profiling.ReplaySum | source/COMPONENT_ML_TFLM/mtb_ml_model.cpp:362-368 | after any sequence of runs the accumulated sum is the exact total modulo 2^64 |
| Profiling.ReplayPeak | source/COMPONENT_ML_TFLM/mtb_ml_model.cpp:362-368 | after any sequence of runs the peak is the largest count and the peak frame is the first run that reached it |
| TflmModel.SizeToInt | source/COMPONENT_ML_TFLM/mtb_ml_model.cpp:235 | a `size_t` converted to `int` keeps small values and wraps large ones into the int32 range |
| TflmModel.CRem | source/COMPONENT_ML_TFLM/mtb_ml_model.cpp:235 | C's `%` agrees with the mathematical remainder for non-negative operands and stays strictly inside the divisor |
| TflmModel.ArenaRequestAligned | source/COMPONENT_ML_TFLM/mtb_ml_model.cpp:235 | the arena allocation is a multiple of 16 that exceeds the arena size by 1 to 16 bytes |
| TflmModel.ArenaRequestExample | source/COMPONENT_ML_TFLM/mtb_ml_model.cpp:235 | a 4096-byte arena requests 4112 bytes, a 100-byte one 112 |
| TflmModel.InitOutcome | source/COMPONENT_ML_TFLM/mtb_ml_model.cpp:187-263 | init ends in SUCCESS, BAD_ARG or ALLOC_ERR, by argument checks, object fit, arena fit and tensor allocation |
| TflmModel.Runtime.constructor | source/COMPONENT_ML_TFLM/mtb_ml_model.cpp:193 | a calloc'ed object: all fields zero, profiling disabled, tallies cleared |
| TflmModel.Runtime.Release | source/COMPONENT_ML_TFLM/mtb_ml_model.cpp:293-295 | frees exactly the blocks the object owns, interpreter included |
| TflmModel.Runtime.ReleaseAsWritten | source/COMPONENT_ML_TFLM/mtb_ml_model.cpp:280-283 | the error path frees the arena and the object but leaves the interpreter block live |
| TflmModel.Runtime.TakeArena | source/COMPONENT_ML_TFLM/mtb_ml_model.cpp:204-243 | a caller arena is used as given; otherwise the aligned request is allocated, failing exactly when it does not fit |
| TflmModel.Runtime.TakeInterpreter | source/COMPONENT_ML_TFLM/mtb_ml_model.cpp:250-256 | `new` always yields a fresh interpreter block without consuming accounted memory |
| TflmModel.NewRuntime | source/COMPONENT_ML_TFLM/mtb_ml_model.cpp:193-217 | the object is allocated exactly when it fits (no change otherwise), zeroed, named after the model, carrying the model size and the arena size the build or the caller's buffer sets, with profiling off; its footprint is the object block alone |
| TflmModel.Prepare | source/COMPONENT_ML_TFLM/mtb_ml_model.cpp:186-256 | object, arena and interpreter are set up exactly when object and arena fit; ALLOC_ERR leaves the heap as it was |
| TflmModel.Fill | source/COMPONENT_ML_TFLM/mtb_ml_model.cpp:265-276 | the input/output pointers, sizes, quantisation and used arena come from the interpreter; ownership and profiling state are untouched |
| TflmModel.Init | source/COMPONENT_ML_TFLM/mtb_ml_model.cpp:172-284 | the status is InitOutcome; every failure, a failed tensor allocation included, restores heap and `*object`; success owns exactly the new blocks |
| TflmModel.InitAsWritten | source/COMPONENT_ML_TFLM/mtb_ml_model.cpp:172-284 | as the code is written: a failed tensor allocation returns ALLOC_ERR but adds one interpreter block to the heap, and this happens exactly when everything else succeeded |
| TflmModel.TensorAllocationFailureLeaks | source/COMPONENT_ML_TFLM/mtb_ml_model.cpp:258-283 | a concrete init on a 4096-byte heap: ALLOC_ERR with one block left live as written, none when corrected |
| TflmModel.Deinit | source/COMPONENT_ML_TFLM/mtb_ml_model.cpp:286-298 | BAD_ARG with no change for NULL; otherwise frees exactly the object's blocks |
| TflmModel.InitThenDeinit | source/COMPONENT_ML_TFLM/mtb_ml_model.cpp:172-298 | init followed by de-init leaves the heap as it was |
| TflmModel.SetInput | source/COMPONENT_ML_TFLM/mtb_ml_model.cpp:117-124 | the input tensor becomes a copy of the caller's data |
| TflmModel.Runtime.RecordCycles | source/COMPONENT_ML_TFLM/mtb_ml_model.cpp:336-369 | CYCLE_COUNT_ERROR with nothing recorded exactly when the NPU share (the NPU count divided by the clock ratio, truncated) exceeds the 64-bit delta; otherwise the CPU tally observes the delta less the NPU share, the NPU tally the NPU count, and the frame counter steps |
| TflmModel.Run | source/COMPONENT_ML_TFLM/mtb_ml_model.cpp:300-386 | BAD_ARG for NULL; the input is copied in. An interpreter failure goes to lib_error with no counter moved. With model profiling on, CYCLE_COUNT_ERROR when the NPU share exceeds the delta; otherwise the CPU and NPU tallies observe this frame and the frame counter steps. The frame lets only the cycle counters, the tallies, lib_error and the tensor change, so the buffers, sizes, quantisation and descriptive fields stay |
| TflmModel.ProfileConfig | source/COMPONENT_ML_TFLM/mtb_ml_model.cpp:414-442 | BAD_ARG exactly for NULL; the setting is stored; any non-DISABLE value clears the CPU tally and the frame counter; NPU boards clear the NPU tally; the frame lets only the setting, the frame counter and the tallies change |
| TflmModel.ProfileSession | source/COMPONENT_ML_TFLM/mtb_ml_model.cpp:336-369 | enabling profiling (lines 427-434) and then n successful runs leaves tallies equal to the replay of the per-run counts (so sum, peak and peak frame follow ReplaySum and ReplayPeak) and the frame counter at n |
| TflmModel.GetOutput | source/COMPONENT_ML_TFLM/mtb_ml_model.cpp:388-407 | BAD_ARG exactly for NULL, with nothing written; otherwise each non-null out-pointer receives the output buffer or its size |
| TflmModel.GetInputSize | source/COMPONENT_ML_TFLM/mtb_ml_model.cpp:409-412 | the object's input element count |
| TflmModel.RnnResetAllParameters | source/COMPONENT_ML_TFLM/mtb_ml_model.cpp:472-487 | SUCCESS exactly when the object exists and the reset succeeds; a failure is kept in lib_error; the frame lets no other field of the object change, so buffers, interpreter and profiling state stay as they were |
| TflmLessModel.InitOutcome | source/COMPONENT_ML_TFLM_LESS/mtb_ml_model.cpp:102-132 | init ends in SUCCESS, BAD_ARG, ALLOC_ERR or BAD_MODEL |
| TflmLessModel.Runtime.constructor | source/COMPONENT_ML_TFLM_LESS/mtb_ml_model.cpp:108 | a calloc'ed object with no RMF attached |
| TflmLessModel.Fill | source/COMPONENT_ML_TFLM_LESS/mtb_ml_model.cpp:134-145 | sizes are the products of the RMF tensor dimensions; pointers and quantisation come from the RMF; the rest is untouched |
| TflmLessModel.Init | source/COMPONENT_ML_TFLM_LESS/mtb_ml_model.cpp:96-149 | the status is InitOutcome; failure restores heap and `*object`; success owns exactly the new block |
| TflmLessModel.Deinit | source/COMPONENT_ML_TFLM_LESS/mtb_ml_model.cpp:151-161 | BAD_ARG with no change for NULL; otherwise frees the object |
| TflmLessModel.InitThenDeinit | source/COMPONENT_ML_TFLM_LESS/mtb_ml_model.cpp:96-161 | init followed by de-init leaves the heap as it was |
| TflmLessModel.Run | source/COMPONENT_ML_TFLM_LESS/mtb_ml_model.cpp:163-246 | BAD_ARG for NULL. Every input tensor receives its slice of the caller's data. Failure and profiling behave as in the interpreter variant. The frame lets only the cycle counters, the tallies, lib_error and the tensors change |
| TflmLessModel.ProfileConfig | source/COMPONENT_ML_TFLM_LESS/mtb_ml_model.cpp:274-297 | as the interpreter variant: store, clear on enable, clear NPU counters on NPU boards; the frame lets only the setting, the frame counter and the tallies change |
| TflmLessModel.ProfileSession | source/COMPONENT_ML_TFLM_LESS/mtb_ml_model.cpp:197-229 | after profiling is enabled (lines 282-289), n successful profiled runs leave the tallies at the replay of the per-run counts and the frame counter at n |
| TflmLessModel.GetOutput | source/COMPONENT_ML_TFLM_LESS/mtb_ml_model.cpp:248-267 | BAD_ARG exactly for NULL; otherwise writes the output buffer and size |
| TflmLessModel.GetInputSize | source/COMPONENT_ML_TFLM_LESS/mtb_ml_model.cpp:269-272 | the object's input element count |
| TflmLessModel.RnnResetAllParameters | source/COMPONENT_ML_TFLM_LESS/mtb_ml_model.cpp:327-340 | SUCCESS exactly when the object exists and the reset succeeds; lib_error is not touched |
| RmfApi.Elements | source/COMPONENT_ML_TFLM_LESS/mtb_ml_model.cpp:63-81 | the element count the loop computes is the product of the dimensions |
| RmfApi.ProductZero | source/COMPONENT_ML_TFLM_LESS/mtb_ml_model.cpp:63-81 | the count is 0 exactly when some dimension is 0, and 1 for no dimensions |
| RmfApi.ProductPositive | source/COMPONENT_ML_TFLM_LESS/mtb_ml_model.cpp:63-81 | with positive dimensions the count is positive and at least every dimension |
| RmfApi.Lengths | source/COMPONENT_ML_TFLM_LESS/mtb_ml_model.cpp:175-179 | one length per input tensor, equal to its element count |
| RmfApi.Slices | source/COMPONENT_ML_TFLM_LESS/mtb_ml_model.cpp:175-179 | the caller's data cut into one part per tensor |
| RmfApi.SliceAt | source/COMPONENT_ML_TFLM_LESS/mtb_ml_model.cpp:175-179 | tensor i's part starts at the sum of the earlier lengths and has its own length |
| RmfApi.SlicesTile | source/COMPONENT_ML_TFLM_LESS/mtb_ml_model.cpp:175-179 | the parts, put back together, are the consumed prefix of the data, with no gap or overlap |
| RmfApi.CopyInto | source/COMPONENT_ML_TFLM_LESS/mtb_ml_model.cpp:175-179 | one tensor receives the data starting at the given offset |
| RmfApi.SetInputs | source/COMPONENT_ML_TFLM_LESS/mtb_ml_model.cpp:175-179 | each input tensor receives its own slice of the caller's data |
| TflmInterpreterModel.InitOutcome | source/COMPONENT_ML_TFLM_INTERPRETER/mtb_ml_model.cpp:148-205 | init ends in SUCCESS, BAD_ARG or ALLOC_ERR |
| TflmInterpreterModel.Runtime.constructor | source/COMPONENT_ML_TFLM_INTERPRETER/mtb_ml_model.cpp:154 | a calloc'ed object |
| TflmInterpreterModel.Runtime.Release | source/COMPONENT_ML_TFLM_INTERPRETER/mtb_ml_model.cpp:232-234 | frees exactly the blocks the object owns, interpreter included |
| TflmInterpreterModel.Runtime.ReleaseAsWritten | source/COMPONENT_ML_TFLM_INTERPRETER/mtb_ml_model.cpp:216-219 | the error path frees arena and object but leaves the interpreter block live |
| TflmInterpreterModel.Runtime.TakeArena | source/COMPONENT_ML_TFLM_INTERPRETER/mtb_ml_model.cpp:165-190 | a caller arena is used as given; otherwise the request is allocated, failing exactly when it does not fit |
| TflmInterpreterModel.Runtime.TakeInterpreter | source/COMPONENT_ML_TFLM_INTERPRETER/mtb_ml_model.cpp:192-198 | `new` always yields a fresh interpreter block |
| TflmInterpreterModel.NewRuntime | source/COMPONENT_ML_TFLM_INTERPRETER/mtb_ml_model.cpp:154-178 | the object is allocated exactly when it fits (no change otherwise), zeroed, named after the model, carrying the model size and the arena size, with the cycle tally cleared; its footprint is the object block alone |
| TflmInterpreterModel.Prepare | source/COMPONENT_ML_TFLM_INTERPRETER/mtb_ml_model.cpp:147-198 | set up exactly when object and arena fit; ALLOC_ERR leaves the heap as it was |
| TflmInterpreterModel.Fill | source/COMPONENT_ML_TFLM_INTERPRETER/mtb_ml_model.cpp:207-212 | sizes and output quantisation come from the interpreter; the reported buffer size is the used arena plus 1023 (line 103) |
| TflmInterpreterModel.Init | source/COMPONENT_ML_TFLM_INTERPRETER/mtb_ml_model.cpp:139-220 | the status is InitOutcome; every failure restores heap and `*object`; success owns exactly the new blocks |
| TflmInterpreterModel.InitAsWritten | source/COMPONENT_ML_TFLM_INTERPRETER/mtb_ml_model.cpp:200-219 | as written, a failed tensor allocation returns ALLOC_ERR with one interpreter block left live |
| TflmInterpreterModel.Deinit | source/COMPONENT_ML_TFLM_INTERPRETER/mtb_ml_model.cpp:225-237 | BAD_ARG with no change for NULL; otherwise frees exactly the object's blocks |
| TflmInterpreterModel.InitThenDeinit | source/COMPONENT_ML_TFLM_INTERPRETER/mtb_ml_model.cpp:139-237 | init followed by de-init leaves the heap as it was |
| TflmInterpreterModel.Run | source/COMPONENT_ML_TFLM_INTERPRETER/mtb_ml_model.cpp:243-293 | BAD_ARG for NULL; the input is copied in; an interpreter failure goes to lib_error; with profiling on, the tally observes the 32-bit delta and the frame counter steps; the frame lets only the cycle counter, the tally, lib_error and the tensor change |
| TflmInterpreterModel.ProfileConfig | source/COMPONENT_ML_TFLM_INTERPRETER/mtb_ml_model.cpp:330-347 | BAD_ARG exactly for NULL; stores the setting and clears the counters when enabling; the frame lets only the setting, the frame counter and the tally change |
| TflmInterpreterModel.ProfileSession | source/COMPONENT_ML_TFLM_INTERPRETER/mtb_ml_model.cpp:269-281 | after profiling is enabled (lines 330-347), n profiled runs leave the tally at the replay of the 32-bit deltas and the frame counter at n |
| TflmInterpreterModel.GetOutput | source/COMPONENT_ML_TFLM_INTERPRETER/mtb_ml_model.cpp:298-317 | BAD_ARG exactly for NULL; otherwise writes the output buffer and size |
| TflmInterpreterModel.GetInputSize | source/COMPONENT_ML_TFLM_INTERPRETER/mtb_ml_model.cpp:322-325 | the object's input element count |
| TflmInterpreterModel.GetRecurrentTimeSeriesFrames | source/COMPONENT_ML_TFLM_INTERPRETER/mtb_ml_model.cpp:375-379 | this runtime has no recurrent series: always 0 |
| TflmInterpreterModel.RnnStateControl | source/COMPONENT_ML_TFLM_INTERPRETER/mtb_ml_model.cpp:384-390 | a no-op that always succeeds |
| TflmInterpreterModel.SetInputQFractionBits | source/COMPONENT_ML_TFLM_INTERPRETER/mtb_ml_model.cpp:395-400 | a no-op that always succeeds |
| TflmInterpreterModel.GetOutputQFractionBits | source/COMPONENT_ML_TFLM_INTERPRETER/mtb_ml_model.cpp:405-409 | always 0 |
| TflmInterpreterLessModel.InitOutcome | source/COMPONENT_ML_TFLM_INTERPRETER_LESS/mtb_ml_model.cpp:99-129 | init ends in SUCCESS, BAD_ARG, ALLOC_ERR or BAD_MODEL |
| TflmInterpreterLessModel.Runtime.constructor | source/COMPONENT_ML_TFLM_INTERPRETER_LESS/mtb_ml_model.cpp:105 | a calloc'ed object with no RMF attached |
| TflmInterpreterLessModel.Fill | source/COMPONENT_ML_TFLM_INTERPRETER_LESS/mtb_ml_model.cpp:132-139 | sizes are the products of the RMF tensor dimensions |
| TflmInterpreterLessModel.Init | source/COMPONENT_ML_TFLM_INTERPRETER_LESS/mtb_ml_model.cpp:93-143 | the status is InitOutcome; failure restores heap and `*object` |
| TflmInterpreterLessModel.Deinit | source/COMPONENT_ML_TFLM_INTERPRETER_LESS/mtb_ml_model.cpp:148-158 | BAD_ARG with no change for NULL; otherwise frees the object |
| TflmInterpreterLessModel.InitThenDeinit | source/COMPONENT_ML_TFLM_INTERPRETER_LESS/mtb_ml_model.cpp:93-158 | init followed by de-init leaves the heap as it was |
| TflmInterpreterLessModel.Run | source/COMPONENT_ML_TFLM_INTERPRETER_LESS/mtb_ml_model.cpp:164-218 | BAD_ARG for NULL; each input tensor receives its slice; profiling observes the 32-bit delta; the frame lets only the cycle counter, the tally, lib_error and the tensors change |
| TflmInterpreterLessModel.ProfileConfig | source/COMPONENT_ML_TFLM_INTERPRETER_LESS/mtb_ml_model.cpp:255-272 | BAD_ARG exactly for NULL; stores the setting and clears the counters when enabling; the frame lets only the setting, the frame counter and the tally change |
| TflmInterpreterLessModel.ProfileSession | source/COMPONENT_ML_TFLM_INTERPRETER_LESS/mtb_ml_model.cpp:194-206 | after profiling is enabled (lines 255-272), n profiled runs leave the tally at the replay of the 32-bit deltas and the frame counter at n |
| TflmInterpreterLessModel.GetOutput | source/COMPONENT_ML_TFLM_INTERPRETER_LESS/mtb_ml_model.cpp:223-242 | BAD_ARG exactly for NULL; otherwise writes the output buffer and size |
| TflmInterpreterLessModel.GetInputSize | source/COMPONENT_ML_TFLM_INTERPRETER_LESS/mtb_ml_model.cpp:247-250 | the object's input element count |
| TflmInterpreterLessModel.GetRecurrentTimeSeriesFrames | source/COMPONENT_ML_TFLM_INTERPRETER_LESS/mtb_ml_model.cpp:300-304 | always 0 |
| TflmInterpreterLessModel.RnnStateControl | source/COMPONENT_ML_TFLM_INTERPRETER_LESS/mtb_ml_model.cpp:309-315 | a no-op that always succeeds |
| TflmInterpreterLessModel.SetInputQFractionBits | source/COMPONENT_ML_TFLM_INTERPRETER_LESS/mtb_ml_model.cpp:320-325 | a no-op that always succeeds |
| TflmInterpreterLessModel.GetOutputQFractionBits | source/COMPONENT_ML_TFLM_INTERPRETER_LESS/mtb_ml_model.cpp:330-334 | always 0 |
| NnLite.StepEffect | source/mtb_ml_nnlite.c:303-314 | accelerator start records the time stamp; accelerator done adds the elapsed time mod 2^64; any other point changes nothing |
| NnLite.OtherPointsIgnored | source/mtb_ml_nnlite.c:303-314 | a stream of non-accelerator points leaves the counter as it was |
| NnLite.ApplyJob | source/mtb_ml_nnlite.c:309-314 | one start/done pair adds exactly that job's duration mod 2^64 |
| NnLite.JobsAccumulate | source/mtb_ml_nnlite.c:312-313 | a sequence of jobs adds the sum of their durations mod 2^64 |
| NnLite.InferenceCycles | source/mtb_ml_nnlite.c:312-313 | from a cleared counter, an inference's NPU cycles are the total job time mod 2^64 |
| NnLite.NpuAccumulator.constructor | source/mtb_ml_nnlite.c:290-292 | the static state starts cleared |
| NnLite.NpuAccumulator.ProfGet | source/mtb_ml_nnlite.c:299-315 | the profiling hook steps the counter as StepEffect says |
| NnLite.NpuAccumulator.Init | source/mtb_ml_nnlite.c:322-356 | the kernel is configured with RTOS hooks when built for an RTOS and with the profiling hook; the NPU clock is the core clock; the result is SUCCESS exactly when the kernel init succeeds |
| StreamCore.Literal | include/mtb_ml_stream_impl.h:61-74 | a protocol token's bytes are its characters followed by the terminating NUL |
| StreamCore.ScanFrom | source/COMPONENT_ML_MW_STREAM/mtb_ml_stream.c:166-199 | the token matcher ends in SUCCESS or COMM_ERROR and consumes no more events than it was given |
| StreamCore.WaitForString | source/COMPONENT_ML_MW_STREAM/mtb_ml_stream.c:166-199 | the matching loop agrees with ScanFrom, and success means the token's bytes were the last ones read |
| StreamCore.ScanSound | source/COMPONENT_ML_MW_STREAM/mtb_ml_stream.c:166-199 | whatever the matcher reports found is there |
| StreamCore.ScanCompletesToken | source/COMPONENT_ML_MW_STREAM/mtb_ml_stream.c:166-199 | a token arriving from the matcher's current position is found right after its last byte |
| StreamCore.StrayPrefixHidesStart | source/COMPONENT_ML_MW_STREAM/mtb_ml_stream.c:175-190 | a mismatching byte is not compared again from the start, so "MML_START\0" ends with the token yet is not matched |
| StreamCore.CopyChunk | source/COMPONENT_ML_MW_STREAM/mtb_ml_stream.c:130-161 | one read places its bytes right after those already received and nothing else changes |
| StreamCore.GetData | source/COMPONENT_ML_MW_STREAM/mtb_ml_stream.c:130-161 | the buffer holds the stream's prefix. SUCCESS exactly when `length` bytes arrived. COMM_ERROR exactly on a failed read. TIMEOUT when the empty polls reach the timeout |
| StreamCore.CheckHeader | source/COMPONENT_ML_MW_STREAM/mtb_ml_stream.c:327-349 | the header is accepted exactly when frame size, output unit and input unit all match; otherwise BAD_ARG |
| StreamCore.RxTimeoutBounds | source/COMPONENT_ML_MW_STREAM/mtb_ml_stream.c:375-379 | the frame timeout is at least the default; when the size_t product fits it is the larger of the default and ten seconds per 10 KiB |
| StreamCore.SeriesCountClosedForm | source/COMPONENT_ML_MW_STREAM/mtb_ml_stream.c:404-408 | the stream task's time-series counter before frame j is j mod ts, and a result is sent after frame j exactly when ts divides j + 1 (every frame for ts = 0) |
| StreamCore.ScheduleMembers | source/COMPONENT_ML_MW_STREAM/mtb_ml_stream.c:404-408 | the frames after which results are sent are exactly those whose number plus one ts divides |
| StreamCore.ScheduleCount | source/COMPONENT_ML_MW_STREAM/mtb_ml_stream.c:404-408 | over n frames: n results for a non-recurrent model, n / ts for a recurrent one, none for a negative ts |
| StreamCore.Frame | source/COMPONENT_ML_MW_STREAM/mtb_ml_stream.c:361-431 | one frame's status is that of its first failing step, and a received frame lands in the buffer |
| StreamCore.Frames | source/COMPONENT_ML_MW_STREAM/mtb_ml_stream.c:361-431 | the frame loop stops at the first failing frame with its status. The frames before it all succeeded. Results went back after exactly the scheduled frames. Success means all n_ex frames were done |
| StreamCore.Int32At | include/mtb_ml_stream_impl.h:90-110 | a little-endian header field reads as an int32 |
| StreamCore.EncodeInt32 | include/mtb_ml_stream_impl.h:90-110 | an int32 takes four bytes |
| StreamCore.Int32RoundTrip | include/mtb_ml_stream_impl.h:90-110 | an encoded int32 reads back as itself wherever it sits in a message |
| StreamCore.Handshake | source/COMPONENT_ML_MW_STREAM/mtb_ml_stream.c:204-294 | TIMEOUT when ML_START never comes; COMM_ERROR when any later step fails; on success the header buffer holds the header bytes received |
| StreamCore.Closing | source/COMPONENT_ML_MW_STREAM/mtb_ml_stream.c:437-452 | COMM_ERROR without ML_COMPLETED; otherwise the status of sending ML_DONE |
| Stream.RegressionInfoFor | source/COMPONENT_ML_MW_STREAM/mtb_ml_stream.c:249-262 | the model information carries the model's sizes, tags the engine, and carries the series length for IFX or the output quantisation for TFLM |
| Stream.DecodeHeader | include/mtb_ml_stream_impl.h:90-110 | the newer header carries a data-type field |
| Stream.EncodeHeader | include/mtb_ml_stream_impl.h:90-110 | a header takes 28 bytes |
| Stream.DecodeEncodeHeader | include/mtb_ml_stream_impl.h:90-110 | every in-range header decodes back from its encoding |
| Stream.StreamObject.constructor | source/COMPONENT_ML_MW_STREAM/mtb_ml_stream.c:458-507 | the static object starts with NULL pointers |
| Stream.StreamObject.Init | source/COMPONENT_ML_MW_STREAM/mtb_ml_stream.c:458-507 | the status is InitOutcome (BAD_ARG for a missing interface or binary or a non-UART bus, the model's failure, ALLOC_ERR when model or frame buffer does not fit); any failure leaves the heap as it was |
| Stream.StreamObject.Deinit | source/COMPONENT_ML_MW_STREAM/mtb_ml_stream.c:512-517 | frees exactly the model object and the frame buffer |
| Stream.StreamObject.InitThenDeinit | source/COMPONENT_ML_MW_STREAM/mtb_ml_stream.c:458-517 | init followed by de-init leaves the heap as it was |
| Stream.StreamObject.Stream | source/COMPONENT_ML_MW_STREAM/mtb_ml_stream.c:299-453 | after the header: BAD_ARG and nothing done on a mismatch; otherwise a recurrent model is reset, the input Q is set and the frame loop and closing decide the status |
| Stream.StreamObject.Task | source/COMPONENT_ML_MW_STREAM/mtb_ml_stream.c:299-453 | a failed handshake ends the stream task with its status and nothing done; otherwise the decoded header drives the session as Stream states |
| LegacyStream.RegressionInfoFor | mtb_ml_stream.c:227-231 | the earlier model information carries the model size, class count, memory sizes and series length |
| LegacyStream.DecodeHeader | mtb_ml_stream_impl.h:66-83 | the earlier header has no data-type field |
| LegacyStream.EncodeHeader | mtb_ml_stream_impl.h:66-83 | a header takes 24 bytes |
| LegacyStream.DecodeEncodeHeader | mtb_ml_stream_impl.h:66-83 | every in-range header decodes back from its encoding |
| LegacyStream.StreamObject.constructor | mtb_ml_stream.c:419-477 | the static object starts with NULL pointers |
| LegacyStream.StreamObject.TakeBuffers | mtb_ml_stream.c:452-471 | the output and frame buffers are allocated exactly when both fit in turn; otherwise the heap is restored |
| LegacyStream.StreamObject.TakeSession | mtb_ml_stream.c:437-471 | the model object, the output buffer and the frame buffer are all taken exactly when each fits in what the ones before leave; otherwise the heap is as it was |
| LegacyStream.StreamObject.Init | mtb_ml_stream.c:419-477 | the status is the init outcome; any failure leaves the heap as it was |
| LegacyStream.StreamObject.Deinit | mtb_ml_stream.c:482-488 | frees exactly the model object, the output buffer and the frame buffer |
| LegacyStream.StreamObject.InitThenDeinit | mtb_ml_stream.c:419-488 | init followed by de-init leaves the heap as it was |
| LegacyStream.StreamObject.Stream | mtb_ml_stream.c:268-414 | after the header: BAD_ARG on a mismatch; otherwise the frame loop and closing decide the status |
| LegacyStream.StreamObject.Task | mtb_ml_stream.c:268-414 | a failed handshake ends the stream task with its status; otherwise the decoded header drives the session |

## Left out

- Floating point is modelled as exact reals. Rounding of `float` arithmetic is not captured.
- The overflow of a float-to-int32 cast for huge values is not modelled; it is undefined behaviour in C.
- `malloc(0)`, which a wrapped request can produce, is modelled as succeeding with an empty block; C lets the implementation return NULL instead.
- Profiling.NormNpuCycles: the `(float)` conversion of the NPU count is exact here, and a quotient of 2^64 or more is kept whole rather than cast to `uint64_t`, which is undefined in C; such a share always fails the cycle-count check.
- The inference engines (`Cy_ML_*`), the TFLM interpreter and kernels, the RMF-generated model code and the Ethos-U driver are not modelled. Their results are parameters of the operations that call them.
- The UART HAL (`cyhal_uart_*`) is not modelled. Its per-call results are parameters: getc events, read sizes, send statuses.
- The `(char)` cast in `uart_send_data` at source/COMPONENT_ML_MW_STREAM/mtb_ml_stream.c:114 is not modelled, because only send statuses are modelled, not the sent bytes.
- Logging and printing (`printf` under LOG_ENABLE_MODEL_LOG, `mtb_ml_model_info`, `profile_log`) are left out. They produce text only, and the float division in the log is part of that text.
- The earlier `mtb_ml_model_info` prints the scratch and persistent sizes under each other's labels. Only printing is affected, so it is left out with the rest of the printing.
- RTOS semaphores (source/mtb_ml_rtos.c) and `nnlite_deinit` are left out. The NNLite model keeps only the profiling hook and the clock setup.
- The Ethos-U PMU enable in `profile_config`, the U55 cache and recurrent calls, and the `TFLM_RESVAR` arena variant are left out. They are hardware or build variants with no state the middleware keeps.
- ARMCC's `posix_memalign` path is not modelled; the `aligned_alloc` path is. Both request the same aligned size.
- Concurrency is left out: the stream task and the model calls are modelled as sequential.
- TflmModel.GetInputSize: requires a non-null object, because the code dereferences it without a NULL check. The header promises 0 for NULL, which the code does not deliver.
- TflmLessModel.GetInputSize, TflmInterpreterModel.GetInputSize, TflmInterpreterLessModel.GetInputSize: these also require a non-null object, for the same reason.
- Stream.StreamObject.Task: the host's frame data and the number of frames are parameters bounded by the dataset header's `n_ex`.
- LegacyStream.StreamObject.Task: the same as for `Stream.StreamObject.Task`.

## Findings

| source | as written | input that shows it | evidently intended | confidence | as-written member | corrected member |
|---|---|---|---|---|---|---|
| source/COMPONENT_ML_TFLM/mtb_ml_model.cpp:258-283 | a failed `AllocateTensors` jumps to `ret_err`, which frees the arena and the object but never deletes the interpreter | a 4096-byte heap, a model whose arena fits, an interpreter whose tensor allocation fails | every init failure releases everything init acquired | not executed | TflmModel.InitAsWritten | TflmModel.Init |
| source/COMPONENT_ML_TFLM_INTERPRETER/mtb_ml_model.cpp:200-219 | the same error path in the interpreter runtime leaves the interpreter allocated | any init whose tensor allocation fails | every init failure releases everything init acquired | not executed | TflmInterpreterModel.InitAsWritten | TflmInterpreterModel.Init |
| source/mtb_ml_utils.c:56-62 | `norm = (float)(1 << q)` with `max_q = 31` in a float build shifts into the sign bit | float build, q = 31: the norm is -2^31 and every output has the wrong sign | divide by 2^q | not executed | Conversions.IntToFltSignFlipAtQ31 | Conversions.ConvertIntToFlt |
| mtb_ml_utils.c:20-33 | the earlier INT_TO_FLT has the same `norm = (float)(1 << q)` with `max_q = 31` in a float build | float build of the earlier release, q = 31: the norm is -2^31 and every output has the wrong sign | divide by 2^q | not executed | Conversions.IntToFltSignFlipAtQ31 | LegacyConversions.IntToFlt |
| source/mtb_ml_utils.c:517 | in a TFLM build whose MTB_ML_DATA_T is int16_t, the int16 `quantized_values` buffer is passed as the `int8_t *out` of the int8 conversion, so the int8 results are packed two to an element | TFLM build with int16 data, input [0.0, 1.0], scale 1.0, zero point 0: element 0 becomes 256 and element 1 is not written | one quantised value per input element | not executed | Conversions.PackedQuantizeExample | Conversions.ModelQuantize |
