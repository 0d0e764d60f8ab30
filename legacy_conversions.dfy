// The numeric utilities of the earlier library release. Its argmax and
// conversions compute what the current ones compute; what differs is that
// every INT_TO_FLT wrapper bounds the Q factor by the width of
// MTB_ML_DATA_T rather than of its own element type, and that the float to
// fixed-point conversions always take the CMSIS-DSP saturating path.

module LegacyConversions {
  import opened Common
  import Conversions

  /** find_max: -1 on a null array or non-positive size, else the first index of the maximum. */
  method FindMax(xs: array?<real>, size: int) returns (maxIdx: int)
    requires xs != null && size > 0 ==> size <= xs.Length
    ensures maxIdx == -1 <==> xs == null || size <= 0
    ensures maxIdx != -1 ==> 0 <= maxIdx < size
    ensures maxIdx != -1 ==> forall j :: 0 <= j < size ==> xs[j] <= xs[maxIdx]
    ensures maxIdx != -1 ==> forall j :: 0 <= j < maxIdx ==> xs[j] < xs[maxIdx]
  {
    maxIdx := Conversions.FindMax(xs, size);
  }

  /** find_max_int32: the same search over int32_t values. */
  method FindMaxInt32(xs: array?<int>, size: int) returns (maxIdx: int)
    requires xs != null && size > 0 ==> size <= xs.Length
    ensures maxIdx == -1 <==> xs == null || size <= 0
    ensures maxIdx != -1 ==> 0 <= maxIdx < size
    ensures maxIdx != -1 ==> forall j :: 0 <= j < size ==> xs[j] <= xs[maxIdx]
    ensures maxIdx != -1 ==> forall j :: 0 <= j < maxIdx ==> xs[j] < xs[maxIdx]
  {
    maxIdx := Conversions.FindMaxInt32(xs, size);
  }

  /**
   * INT_TO_FLT as the earlier release expands it for convert_int8_to_flt,
   * convert_int16_to_flt and convert_int_to_flt alike: the Q factor is
   * bounded by the width of MTB_ML_DATA_T whatever the element type, so a
   * 16-bit build accepts q up to 15 for int8 data. The results are the
   * intended `x / 2^q`; the shift the macro divides by goes negative at
   * q = 31 in a float build (Conversions.IntToFltSignFlipAtQ31).
   */
  method IntToFlt(data: DataType, xs: array?<real>, out: array?<real>, size: int, q: int)
    returns (status: Status)
    requires xs != null && out != null && size > 0 ==> size <= xs.Length && size <= out.Length
    modifies out
    ensures status == Success || status == BadArg
    ensures status == BadArg <==> xs == null || out == null || size <= 0 || q < 0 || q > Conversions.MaxQ(data)
    ensures status == BadArg ==> out == null || unchanged(out)
    ensures status == Success ==>
      (forall i :: 0 <= i < size ==> out[i] == Conversions.FixedToReal(old(xs[i]), q)) &&
      (forall i :: size <= i < out.Length ==> out[i] == old(out[i]))
  {
    status := Conversions.IntToFlt(xs, out, size, q, Conversions.MaxQ(data));
  }

  /** The int8 conversion's Q bound depends on the build: 7 in an int8 build, 15 in a 16-bit one. */
  lemma Int8QBoundFollowsBuild()
    ensures Conversions.MaxQ(Int8x8) == 7
    ensures Conversions.MaxQ(Int16x16) == 15 && Conversions.MaxQ(Int16x8) == 15
  {
  }

  /** convert_flt_to_int8: q in 0..7, rounded half away from zero, saturated by __SSAT to 8 bits. */
  method FltToInt8(xs: array?<real>, out: array?<int>, size: int, q: int) returns (status: Status)
    requires xs != null && out != null && size > 0 ==> size <= xs.Length && size <= out.Length
    modifies out
    ensures status == Success || status == BadArg
    ensures status == BadArg <==> xs == null || out == null || size <= 0 || q < 0 || q > 7
    ensures status == BadArg ==> out == null || unchanged(out)
    ensures status == Success ==>
      (forall i :: 0 <= i < size ==> out[i] == Conversions.QToFixed(xs[i], q, 8) && -128 <= out[i] <= 127) &&
      (forall i :: size <= i < out.Length ==> out[i] == old(out[i]))
  {
    status := Conversions.FltToInt8(xs, out, size, q, true);
  }

  /** convert_flt_to_int16: q in 0..15, rounded half away from zero, saturated by __SSAT to 16 bits. */
  method FltToInt16(xs: array?<real>, out: array?<int>, size: int, q: int) returns (status: Status)
    requires xs != null && out != null && size > 0 ==> size <= xs.Length && size <= out.Length
    modifies out
    ensures status == Success || status == BadArg
    ensures status == BadArg <==> xs == null || out == null || size <= 0 || q < 0 || q > 15
    ensures status == BadArg ==> out == null || unchanged(out)
    ensures status == Success ==>
      (forall i :: 0 <= i < size ==> out[i] == Conversions.QToFixed(xs[i], q, 16) && -32768 <= out[i] <= 32767) &&
      (forall i :: size <= i < out.Length ==> out[i] == old(out[i]))
  {
    status := Conversions.FltToInt16(xs, out, size, q, true);
  }

  /** convert_flt_to_int: int8 or int16 by build; a successful no-op in float builds. */
  method ConvertFltToInt(data: DataType, xs: array?<real>, out: array?<int>, size: int, q: int)
    returns (status: Status)
    requires xs != null && out != null && size > 0 ==> size <= xs.Length && size <= out.Length
    modifies out
    ensures status == Success || status == BadArg
    ensures data == Float32 ==> status == Success && (out == null || unchanged(out))
    ensures data != Float32 ==>
      (status == BadArg <==> xs == null || out == null || size <= 0 || q < 0 || q > Conversions.QuantBits(data) - 1)
    ensures data != Float32 && status == BadArg ==> out == null || unchanged(out)
    ensures data != Float32 && status == Success ==>
      (forall i :: 0 <= i < size ==> out[i] == Conversions.QToFixed(xs[i], q, Conversions.QuantBits(data))) &&
      (forall i :: size <= i < out.Length ==> out[i] == old(out[i]))
  {
    match data
    case Int8x8 =>
      status := FltToInt8(xs, out, size, q);
    case Int16x16 =>
      status := FltToInt16(xs, out, size, q);
    case Int16x8 =>
      status := FltToInt16(xs, out, size, q);
    case Float32 =>
      status := Success;
  }
}
