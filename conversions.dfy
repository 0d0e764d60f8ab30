// The numeric utilities of the current library: argmax, Q-format and
// affine (scale, zero-point) quantisation, and dequantisation.
//
// Floats are modelled as exact reals; MTB_ML_DATA_T values are reals too
// (int8/int16 values and floats both embed exactly), while the explicitly
// int8_t/int16_t outputs of the quantisers are ints.

module Conversions {
  import opened Common

  // ---------------------------------------------------------------------
  // Per-element specification functions.

  /** C's cast of a float to int32_t: truncation toward zero. */
  function Trunc(v: real): (n: int)
    ensures 0.0 <= v ==> n as real <= v < n as real + 1.0
    ensures v < 0.0 ==> n as real - 1.0 < v <= n as real
  {
    if v >= 0.0 then v.Floor else -((-v).Floor)
  }

  /**
   * `v += v > 0 ? 0.5 : -0.5` followed by the cast: the nearest integer,
   * with ties going away from zero.
   */
  function RoundHalfAway(v: real): (n: int)
    ensures -0.5 <= n as real - v <= 0.5
    ensures v > 0.0 ==> v - 0.5 < n as real
    ensures v < 0.0 ==> n as real < v + 0.5
  {
    Trunc(if v > 0.0 then v + 0.5 else v - 0.5)
  }

  /** Whether n fits a two's-complement integer of the given width. */
  predicate InSigned(n: int, bits: nat)
    requires bits >= 1
  {
    -Pow2(bits - 1) <= n < Pow2(bits - 1)
  }

  /** |a - b| */
  function Dist(a: int, b: int): nat
  {
    if a <= b then b - a else a - b
  }

  /** __SSAT(n, bits), and the explicit SCHAR/SHRT clamp: the representable value nearest n. */
  function Saturate(n: int, bits: nat): (r: int)
    requires bits >= 1
    ensures InSigned(r, bits)
    ensures InSigned(n, bits) ==> r == n
    ensures n >= Pow2(bits - 1) ==> r == Pow2(bits - 1) - 1
    ensures n < -Pow2(bits - 1) ==> r == -Pow2(bits - 1)
    ensures forall m :: InSigned(m, bits) ==> Dist(r, n) <= Dist(m, n)
  {
    if n >= Pow2(bits - 1) then Pow2(bits - 1) - 1
    else if n < -Pow2(bits - 1) then -Pow2(bits - 1)
    else n
  }

  /** `val * norm` with norm = 2^q: a float scaled into Qm.n units. */
  function Scale(v: real, q: nat): real
  {
    v * Pow2(q) as real
  }

  /** One element of float to Qm.n conversion: scale by 2^q, round, saturate. */
  function QToFixed(v: real, q: nat, bits: nat): (r: int)
    requires bits >= 1
    ensures InSigned(r, bits)
  {
    Saturate(RoundHalfAway(Scale(v, q)), bits)
  }

  /** One element of Qm.n to float conversion: `in / norm` with norm = 2^q. */
  function FixedToReal(n: real, q: nat): real
  {
    n / Pow2(q) as real
  }

  /** One element of affine quantisation for TFLM: `x / scale + zero_point`, rounded, saturated to int8. */
  function AffineToInt8(v: real, scale: real, zeroPoint: int): (r: int)
    requires scale > 0.0
    ensures InSigned(r, 8)
  {
    Saturate(RoundHalfAway(v / scale + zeroPoint as real), 8)
  }

  /** One element of affine dequantisation: `(v - zero_point) * scale`. */
  function AffineToReal(n: int, scale: real, zeroPoint: int): real
  {
    (n - zeroPoint) as real * scale
  }

  // ---------------------------------------------------------------------
  // Properties of the element functions.

  lemma {:induction false} TruncMonotone(v: real, w: real)
    requires v <= w
    ensures Trunc(v) <= Trunc(w)
  {
    if 0.0 <= v {
      assert v.Floor <= w.Floor;
    } else if w < 0.0 {
      assert (-w).Floor <= (-v).Floor;
    }
  }

  lemma RoundHalfAwayMonotone(v: real, w: real)
    requires v <= w
    ensures RoundHalfAway(v) <= RoundHalfAway(w)
  {
    if v > 0.0 || w <= 0.0 {
      TruncMonotone(if v > 0.0 then v + 0.5 else v - 0.5, if w > 0.0 then w + 0.5 else w - 0.5);
    }
  }

  lemma SaturateMonotone(n: int, m: int, bits: nat)
    requires bits >= 1
    requires n <= m
    ensures Saturate(n, bits) <= Saturate(m, bits)
  {
  }

  lemma ScaleMonotone(v: real, w: real, q: nat)
    requires v <= w
    ensures Scale(v, q) <= Scale(w, q)
  {
    var p := Pow2(q) as real;
    assert (w - v) * p >= 0.0;
  }

  lemma ScaleSubtracts(v: real, w: real, q: nat)
    ensures Scale(v - w, q) == Scale(v, q) - Scale(w, q)
  {
  }

  lemma ScaleInvertsFixedToReal(n: real, q: nat)
    ensures Scale(FixedToReal(n, q), q) == n
  {
  }

  /** Q-format quantisation preserves order: it never swaps two inputs. */
  lemma QToFixedMonotone(v: real, w: real, q: nat, bits: nat)
    requires bits >= 1
    requires v <= w
    ensures QToFixed(v, q, bits) <= QToFixed(w, q, bits)
  {
    ScaleMonotone(v, w, q);
    RoundHalfAwayMonotone(Scale(v, q), Scale(w, q));
    SaturateMonotone(RoundHalfAway(Scale(v, q)), RoundHalfAway(Scale(w, q)), bits);
  }

  /** Affine quantisation preserves order. */
  lemma AffineToInt8Monotone(v: real, w: real, scale: real, zeroPoint: int)
    requires scale > 0.0
    requires v <= w
    ensures AffineToInt8(v, scale, zeroPoint) <= AffineToInt8(w, scale, zeroPoint)
  {
    assert v / scale <= w / scale;
    RoundHalfAwayMonotone(v / scale + zeroPoint as real, w / scale + zeroPoint as real);
  }

  /** The saturation limits of int8 and int16. */
  lemma SignedLimits()
    ensures Pow2(7) == 128 && Pow2(15) == 32768
  {
  }

  /** Every representable fixed-point value survives dequantise-then-quantise unchanged. */
  lemma QToFixedInvertsFixedToReal(n: int, q: nat, bits: nat)
    requires bits >= 1
    requires InSigned(n, bits)
    ensures QToFixed(FixedToReal(n as real, q), q, bits) == n
  {
    ScaleInvertsFixedToReal(n as real, q);
  }

  /**
   * A float whose scaled value lies in range comes back from quantise-then-
   * dequantise within half a quantisation step: the error, scaled by 2^q,
   * is at most one half.
   */
  lemma QToFixedWithinHalfStep(v: real, q: nat, bits: nat)
    requires bits >= 1
    requires -Pow2(bits - 1) as real <= Scale(v, q) <= (Pow2(bits - 1) - 1) as real
    ensures -0.5 <= Scale(FixedToReal(QToFixed(v, q, bits) as real, q) - v, q) <= 0.5
  {
    var n := RoundHalfAway(Scale(v, q));
    assert InSigned(n, bits);
    assert QToFixed(v, q, bits) == n;
    ScaleSubtracts(FixedToReal(n as real, q), v, q);
    ScaleInvertsFixedToReal(n as real, q);
  }

  /** Every int8 value survives affine dequantise-then-quantise unchanged. */
  lemma AffineToInt8InvertsAffineToReal(n: int, scale: real, zeroPoint: int)
    requires scale > 0.0
    requires InSigned(n, 8)
    ensures AffineToInt8(AffineToReal(n, scale, zeroPoint), scale, zeroPoint) == n
  {
    assert AffineToReal(n, scale, zeroPoint) / scale == (n - zeroPoint) as real;
  }

  /**
   * A float whose affine image `v / scale + zero_point` lies within half a
   * step of the int8 range comes back from quantise-then-dequantise within
   * half a quantisation step, that is within scale / 2.
   */
  lemma AffineToInt8WithinHalfStep(v: real, scale: real, zeroPoint: int)
    requires scale > 0.0
    requires -128.5 <= v / scale + zeroPoint as real < 127.5
    ensures -scale / 2.0 <= AffineToReal(AffineToInt8(v, scale, zeroPoint), scale, zeroPoint) - v <= scale / 2.0
  {
    var x := v / scale + zeroPoint as real;
    var r := AffineToInt8(v, scale, zeroPoint);
    var n := RoundHalfAway(x);
    SignedLimits();
    assert -0.5 <= r as real - x <= 0.5 by {
      if n < -128 {
        assert r == -128;
      } else {
        assert r == n;
      }
    }
    var e := r as real - x;
    assert v == (v / scale) * scale;
    assert AffineToReal(r, scale, zeroPoint) - v == e * scale;
    assert -0.5 * scale <= e * scale <= 0.5 * scale by {
      assert (e + 0.5) * scale >= 0.0;
      assert (0.5 - e) * scale >= 0.0;
    }
  }

  /** Reference values: Q7 quantisation of 0.5 and -0.5, saturation of 2.0, and an affine case. */
  lemma QuantisationExamples()
    ensures QToFixed(0.5, 7, 8) == 64
    ensures QToFixed(-0.5, 7, 8) == -64
    ensures QToFixed(2.0, 7, 8) == 127
    ensures QToFixed(-3.0, 15, 16) == -32768
    ensures AffineToInt8(1.0, 0.1, 10) == 20
  {
  }

  // ---------------------------------------------------------------------
  // Argmax.

  /**
   * mtb_ml_utils_find_max: -1 for a null array or a non-positive size,
   * otherwise the first index holding the maximum of xs[0..size).
   */
  method FindMax(xs: array?<real>, size: int) returns (maxIdx: int)
    requires xs != null && size > 0 ==> size <= xs.Length
    ensures maxIdx == -1 <==> xs == null || size <= 0
    ensures maxIdx != -1 ==> 0 <= maxIdx < size
    ensures maxIdx != -1 ==> forall j :: 0 <= j < size ==> xs[j] <= xs[maxIdx]
    ensures maxIdx != -1 ==> forall j :: 0 <= j < maxIdx ==> xs[j] < xs[maxIdx]
  {
    maxIdx := -1;
    if xs != null && size > 0 {
      var loopCount := size - 1;
      maxIdx := 0;
      var maxVal := xs[0];
      while loopCount > 0
        invariant 0 <= loopCount <= size - 1
        invariant 0 <= maxIdx < size - loopCount
        invariant maxVal == xs[maxIdx]
        invariant forall j :: 0 <= j < size - loopCount ==> xs[j] <= maxVal
        invariant forall j :: 0 <= j < maxIdx ==> xs[j] < maxVal
      {
        var val := xs[size - loopCount];
        if val > maxVal {
          maxIdx := size - loopCount;
          maxVal := val;
        }
        loopCount := loopCount - 1;
      }
    }
  }

  /** mtb_ml_utils_find_max_int32: the same search over int32_t values. */
  method FindMaxInt32(xs: array?<int>, size: int) returns (maxIdx: int)
    requires xs != null && size > 0 ==> size <= xs.Length
    ensures maxIdx == -1 <==> xs == null || size <= 0
    ensures maxIdx != -1 ==> 0 <= maxIdx < size
    ensures maxIdx != -1 ==> forall j :: 0 <= j < size ==> xs[j] <= xs[maxIdx]
    ensures maxIdx != -1 ==> forall j :: 0 <= j < maxIdx ==> xs[j] < xs[maxIdx]
  {
    maxIdx := -1;
    if xs != null && size > 0 {
      var loopCount := size - 1;
      maxIdx := 0;
      var maxVal := xs[0];
      while loopCount > 0
        invariant 0 <= loopCount <= size - 1
        invariant 0 <= maxIdx < size - loopCount
        invariant maxVal == xs[maxIdx]
        invariant forall j :: 0 <= j < size - loopCount ==> xs[j] <= maxVal
        invariant forall j :: 0 <= j < maxIdx ==> xs[j] < maxVal
      {
        var val := xs[size - loopCount];
        if val > maxVal {
          maxIdx := size - loopCount;
          maxVal := val;
        }
        loopCount := loopCount - 1;
      }
    }
  }

  // ---------------------------------------------------------------------
  // Fixed point to float.

  /** The largest Q factor INT_TO_FLT accepts: one less than the bit width of MTB_ML_DATA_T. */
  function MaxQ(d: DataType): (m: nat)
    ensures m + 1 == 8 * DataBytes(d)
  {
    8 * DataBytes(d) - 1
  }

  /**
   * One `*out++ = (float) *in++ / norm` step of INT_TO_FLT at index k. The
   * input may be the output array, so only the elements after k are known
   * to still hold the original input.
   */
  method DivideOne(xs: array<real>, out: array<real>, k: nat, q: nat, ghost src: seq<real>)
    requires k < xs.Length && k < out.Length && |src| == xs.Length
    requires forall j :: k <= j < xs.Length ==> xs[j] == src[j]
    modifies out
    ensures out[k] == FixedToReal(src[k], q)
    ensures forall j :: 0 <= j < out.Length && j != k ==> out[j] == old(out[j])
    ensures forall j :: k < j < xs.Length ==> xs[j] == src[j]
  {
    out[k] := xs[k] / Pow2(q) as real;
  }

  /**
   * The INT_TO_FLT conversion: argument checks, then out[i] = xs[i] / 2^q,
   * four elements per block and then the size % 4 tail. The input may be the
   * output array itself; every element is read before it is overwritten.
   */
  method IntToFlt(xs: array?<real>, out: array?<real>, size: int, q: int, maxQ: int) returns (status: Status)
    requires xs != null && out != null && size > 0 ==> size <= xs.Length && size <= out.Length
    modifies out
    ensures status == Success || status == BadArg
    ensures status == BadArg <==> xs == null || out == null || size <= 0 || q < 0 || q > maxQ
    ensures status == BadArg ==> out == null || unchanged(out)
    ensures status == Success ==>
      (forall i :: 0 <= i < size ==> out[i] == FixedToReal(old(xs[i]), q)) &&
      (forall i :: size <= i < out.Length ==> out[i] == old(out[i]))
  {
    if xs == null || out == null || size <= 0 || q < 0 || q > maxQ {
      return BadArg;
    }
    ghost var src := xs[..];
    var k := 0;
    var loopCount := size / 4;
    while loopCount > 0
      invariant 0 <= loopCount <= size / 4
      invariant k == 4 * (size / 4 - loopCount)
      invariant forall j :: 0 <= j < k ==> out[j] == FixedToReal(src[j], q)
      invariant forall j :: k <= j < out.Length ==> out[j] == old(out[j])
      invariant forall j :: k <= j < xs.Length ==> xs[j] == src[j]
    {
      DivideOne(xs, out, k, q, src);
      DivideOne(xs, out, k + 1, q, src);
      DivideOne(xs, out, k + 2, q, src);
      DivideOne(xs, out, k + 3, q, src);
      k := k + 4;
      loopCount := loopCount - 1;
    }
    loopCount := size % 4;
    while loopCount > 0
      invariant 0 <= loopCount <= size % 4
      invariant k == size - loopCount
      invariant forall j :: 0 <= j < k ==> out[j] == FixedToReal(src[j], q)
      invariant forall j :: k <= j < out.Length ==> out[j] == old(out[j])
      invariant forall j :: k <= j < xs.Length ==> xs[j] == src[j]
    {
      DivideOne(xs, out, k, q, src);
      k := k + 1;
      loopCount := loopCount - 1;
    }
    status := Success;
  }

  /**
   * `(float)(1 << q)` as the code writes it: `1` is a 32-bit signed int, so
   * the shift lands in the sign bit at q = 31 (undefined behaviour in C; a
   * two's-complement target yields INT_MIN).
   */
  function NormAsWritten(q: nat): (norm: int)
    requires q < 32
    ensures -Two32 / 2 <= norm < Two32 / 2
  {
    var shifted := Pow2(q) % Two32;
    if shifted >= Two32 / 2 then shifted - Two32 else shifted
  }

  lemma {:induction false} Pow2Below(k: nat, m: nat)
    requires k < m
    ensures Pow2(k) < Pow2(m)
    decreases m
  {
    if k + 1 < m {
      Pow2Below(k, m - 1);
    }
  }

  lemma {:induction false} Pow2Add(a: nat, b: nat)
    ensures Pow2(a + b) == Pow2(a) * Pow2(b)
    decreases b
  {
    if b > 0 {
      Pow2Add(a, b - 1);
    }
  }

  lemma Pow2Of31()
    ensures Pow2(31) == Two32 / 2
  {
    SignedLimits();
    Pow2Add(15, 16);
    assert Pow2(16) == 65536;
  }

  /** Below q = 31 the shift is exact, so the code divides by 2^q as intended. */
  lemma NormAsWrittenExactBelow31(q: nat)
    requires q < 31
    ensures NormAsWritten(q) == Pow2(q)
  {
    Pow2Below(q, 31);
    Pow2Of31();
  }

  /**
   * In a float build MTB_ML_DATA_T is 4 bytes wide, so the Q check admits
   * q = 31; the shift then yields a negative norm and every converted
   * element changes sign, while the exact conversion keeps it.
   */
  lemma IntToFltSignFlipAtQ31()
    ensures MaxQ(Float32) == 31
    ensures NormAsWritten(31) == -Two32 / 2
    ensures 1.0 / NormAsWritten(31) as real < 0.0
    ensures FixedToReal(1.0, 31) > 0.0
  {
    Pow2Of31();
  }

  /** mtb_ml_utils_convert_int_to_flt: INT_TO_FLT bounded by the width of MTB_ML_DATA_T. */
  method ConvertIntToFlt(data: DataType, xs: array?<real>, out: array?<real>, size: int, q: int)
    returns (status: Status)
    requires xs != null && out != null && size > 0 ==> size <= xs.Length && size <= out.Length
    modifies out
    ensures status == Success || status == BadArg
    ensures status == BadArg <==> xs == null || out == null || size <= 0 || q < 0 || q > MaxQ(data)
    ensures status == BadArg ==> out == null || unchanged(out)
    ensures status == Success ==>
      (forall i :: 0 <= i < size ==> out[i] == FixedToReal(old(xs[i]), q)) &&
      (forall i :: size <= i < out.Length ==> out[i] == old(out[i]))
  {
    status := IntToFlt(xs, out, size, q, MaxQ(data));
  }

  // ---------------------------------------------------------------------
  // Float to fixed point.

  /** The CMSIS-DSP loop shape: four elements per block, then the size % 4 tail. */
  method QuantizeBlocks(xs: array<real>, out: array<int>, size: nat, f: real -> int)
    requires size <= xs.Length && size <= out.Length
    modifies out
    ensures forall i :: 0 <= i < size ==> out[i] == f(xs[i])
    ensures forall i :: size <= i < out.Length ==> out[i] == old(out[i])
  {
    var k := 0;
    var loopCount := size / 4;
    while loopCount > 0
      invariant 0 <= loopCount <= size / 4
      invariant k == 4 * (size / 4 - loopCount)
      invariant forall j :: 0 <= j < k ==> out[j] == f(xs[j])
      invariant forall j :: k <= j < out.Length ==> out[j] == old(out[j])
    {
      out[k] := f(xs[k]);
      out[k + 1] := f(xs[k + 1]);
      out[k + 2] := f(xs[k + 2]);
      out[k + 3] := f(xs[k + 3]);
      k := k + 4;
      loopCount := loopCount - 1;
    }
    loopCount := size % 4;
    while loopCount > 0
      invariant 0 <= loopCount <= size % 4
      invariant k == size - loopCount
      invariant forall j :: 0 <= j < k ==> out[j] == f(xs[j])
      invariant forall j :: k <= j < out.Length ==> out[j] == old(out[j])
    {
      out[k] := f(xs[k]);
      k := k + 1;
      loopCount := loopCount - 1;
    }
  }

  /** The loop shape without CMSIS-DSP: one element at a time, clamped explicitly. */
  method QuantizeEach(xs: array<real>, out: array<int>, size: nat, f: real -> int)
    requires size <= xs.Length && size <= out.Length
    modifies out
    ensures forall i :: 0 <= i < size ==> out[i] == f(xs[i])
    ensures forall i :: size <= i < out.Length ==> out[i] == old(out[i])
  {
    var k := 0;
    var loopCount := size;
    while loopCount > 0
      invariant 0 <= loopCount <= size
      invariant k == size - loopCount
      invariant forall j :: 0 <= j < k ==> out[j] == f(xs[j])
      invariant forall j :: k <= j < out.Length ==> out[j] == old(out[j])
    {
      out[k] := f(xs[k]);
      k := k + 1;
      loopCount := loopCount - 1;
    }
  }

  /** Converts `size` floats to Q-format integers of the given width with a checked Q factor. */
  method FltToFixed(xs: array?<real>, out: array?<int>, size: int, q: int, bits: nat, cmsisDsp: bool)
    returns (status: Status)
    requires bits >= 1
    requires xs != null && out != null && size > 0 ==> size <= xs.Length && size <= out.Length
    modifies out
    ensures status == Success || status == BadArg
    ensures status == BadArg <==> xs == null || out == null || size <= 0 || q < 0 || q > bits - 1
    ensures status == BadArg ==> out == null || unchanged(out)
    ensures status == Success ==>
      (forall i :: 0 <= i < size ==> out[i] == QToFixed(xs[i], q, bits)) &&
      (forall i :: size <= i < out.Length ==> out[i] == old(out[i]))
  {
    if xs == null || out == null || size <= 0 || q < 0 || q > bits - 1 {
      return BadArg;
    }
    if cmsisDsp {
      QuantizeBlocks(xs, out, size, v => QToFixed(v, q, bits));
    } else {
      QuantizeEach(xs, out, size, v => QToFixed(v, q, bits));
    }
    status := Success;
  }

  /** mtb_ml_utils_convert_flt_to_int8: Q factor 0..7, results saturated to int8. */
  method FltToInt8(xs: array?<real>, out: array?<int>, size: int, q: int, cmsisDsp: bool)
    returns (status: Status)
    requires xs != null && out != null && size > 0 ==> size <= xs.Length && size <= out.Length
    modifies out
    ensures status == Success || status == BadArg
    ensures status == BadArg <==> xs == null || out == null || size <= 0 || q < 0 || q > 7
    ensures status == BadArg ==> out == null || unchanged(out)
    ensures status == Success ==>
      (forall i :: 0 <= i < size ==> out[i] == QToFixed(xs[i], q, 8) && -128 <= out[i] <= 127) &&
      (forall i :: size <= i < out.Length ==> out[i] == old(out[i]))
  {
    SignedLimits();
    status := FltToFixed(xs, out, size, q, 8, cmsisDsp);
  }

  /** mtb_ml_utils_convert_flt_to_int16: Q factor 0..15, results saturated to int16. */
  method FltToInt16(xs: array?<real>, out: array?<int>, size: int, q: int, cmsisDsp: bool)
    returns (status: Status)
    requires xs != null && out != null && size > 0 ==> size <= xs.Length && size <= out.Length
    modifies out
    ensures status == Success || status == BadArg
    ensures status == BadArg <==> xs == null || out == null || size <= 0 || q < 0 || q > 15
    ensures status == BadArg ==> out == null || unchanged(out)
    ensures status == Success ==>
      (forall i :: 0 <= i < size ==> out[i] == QToFixed(xs[i], q, 16) && -32768 <= out[i] <= 32767) &&
      (forall i :: size <= i < out.Length ==> out[i] == old(out[i]))
  {
    SignedLimits();
    status := FltToFixed(xs, out, size, q, 16, cmsisDsp);
  }

  /** mtb_ml_utils_convert_tflm_flt_to_int8: affine quantisation with a positive scale. */
  method TflmFltToInt8(xs: array?<real>, out: array?<int>, size: int, scale: real, zeroPoint: int, cmsisDsp: bool)
    returns (status: Status)
    requires xs != null && out != null && size > 0 ==> size <= xs.Length && size <= out.Length
    modifies out
    ensures status == Success || status == BadArg
    ensures status == BadArg <==> xs == null || out == null || size <= 0 || scale <= 0.0
    ensures status == BadArg ==> out == null || unchanged(out)
    ensures status == Success ==>
      (forall i :: 0 <= i < size ==> out[i] == AffineToInt8(xs[i], scale, zeroPoint)) &&
      (forall i :: size <= i < out.Length ==> out[i] == old(out[i]))
  {
    if xs == null || out == null || size <= 0 || scale <= 0.0 {
      return BadArg;
    }
    if cmsisDsp {
      QuantizeBlocks(xs, out, size, v => AffineToInt8(v, scale, zeroPoint));
    } else {
      QuantizeEach(xs, out, size, v => AffineToInt8(v, scale, zeroPoint));
    }
    status := Success;
  }

  // ---------------------------------------------------------------------
  // int8 results stored through a 16-bit buffer.

  /** The affine int8 images of a sequence of floats. */
  function AffineAll(xs: seq<real>, scale: real, zeroPoint: int): (r: seq<int>)
    requires scale > 0.0
    ensures |r| == |xs|
    ensures forall i :: 0 <= i < |xs| ==> r[i] == AffineToInt8(xs[i], scale, zeroPoint)
  {
    seq(|xs|, i requires 0 <= i < |xs| => AffineToInt8(xs[i], scale, zeroPoint))
  }

  /**
   * Element j of an int16 buffer on a little-endian target after the k-th
   * int8 value was stored into byte k for every k below |vals|: byte 2j is
   * the low byte, byte 2j + 1 the (signed) high byte, and an element whose
   * bytes were not reached keeps what it held.
   */
  function PackedAt(prev: int, vals: seq<int>, j: nat): int
  {
    if 2 * j + 1 < |vals| then vals[2 * j + 1] * 256 + vals[2 * j] % 256
    else if 2 * j < |vals| then (prev / 256) * 256 + vals[2 * j] % 256
    else prev
  }

  /** The whole int16 buffer after the int8 values were stored byte by byte from its start. */
  function Packed(prev: seq<int>, vals: seq<int>): (r: seq<int>)
    ensures |r| == |prev|
    ensures forall j :: 0 <= j < |prev| && |vals| <= 2 * j ==> r[j] == prev[j]
  {
    seq(|prev|, j requires 0 <= j < |prev| => PackedAt(prev[j], vals, j))
  }

  /** Byte k of an int16 buffer on a little-endian target, read back as an int8. */
  function ByteAt(s: seq<int>, k: nat): (b: int)
    requires k / 2 < |s|
    ensures InSigned(b, 8)
  {
    var u := (if k % 2 == 0 then s[k / 2] else s[k / 2] / 256) % 256;
    if u >= 128 then u - 256 else u
  }

  /** A signed high byte and an unsigned low byte make one element, from which both come back. */
  lemma ByteSplit(h: int, lo: int)
    requires 0 <= lo < 256
    ensures (h * 256 + lo) / 256 == h && (h * 256 + lo) % 256 == lo
  {
  }

  /** An int8 value survives the trip through its unsigned byte. */
  lemma SignedByteRoundTrip(v: int)
    requires InSigned(v, 8)
    ensures (if v % 256 >= 128 then v % 256 - 256 else v % 256) == v
  {
    SignedLimits();
  }

  /** Every stored int8 value can be read back from its byte. */
  lemma PackedReadsBack(prev: seq<int>, vals: seq<int>, k: nat)
    requires k < |vals| && (|vals| + 1) / 2 <= |prev| && InSigned(vals[k], 8)
    ensures ByteAt(Packed(prev, vals), k) == vals[k]
  {
    var j := k / 2;
    var lo := vals[2 * j] % 256;
    var e := Packed(prev, vals)[j];
    if k % 2 == 1 {
      ByteSplit(vals[k], lo);
      assert e / 256 == vals[k];
    } else if 2 * j + 1 < |vals| {
      ByteSplit(vals[k + 1], lo);
      assert e % 256 == lo;
    } else {
      ByteSplit(prev[j] / 256, lo);
      assert e % 256 == lo;
    }
    SignedByteRoundTrip(vals[k]);
  }

  /** Storing one more int8 value changes exactly the element holding its byte. */
  lemma PackedStep(prev: seq<int>, vals: seq<int>, k: nat)
    requires k < |vals| && k / 2 < |prev|
    ensures Packed(prev, vals[..k + 1]) == Packed(prev, vals[..k])[k / 2 :=
      if k % 2 == 0 then (Packed(prev, vals[..k])[k / 2] / 256) * 256 + vals[k] % 256
      else vals[k] * 256 + Packed(prev, vals[..k])[k / 2] % 256]
  {
    var j := k / 2;
    var a, b := vals[..k], vals[..k + 1];
    if k % 2 == 1 {
      var lo := vals[k - 1] % 256;
      assert Packed(prev, a)[j] == (prev[j] / 256) * 256 + lo;
      assert ((prev[j] / 256) * 256 + lo) % 256 == lo;
    } else {
      assert Packed(prev, a)[j] == prev[j];
    }
    forall i | 0 <= i < |prev| && i != j
      ensures Packed(prev, b)[i] == Packed(prev, a)[i]
    {
      if 2 * i + 1 < k {
        assert b[2 * i] == a[2 * i] && b[2 * i + 1] == a[2 * i + 1];
      }
    }
  }

  /** Stores vals[k] into byte k of the int16 buffer `out`, for every k below n. */
  method PackInt8(vals: array<int>, n: int, out: array<int>)
    requires vals != out && 0 <= n <= vals.Length && (n + 1) / 2 <= out.Length
    modifies out
    ensures out[..] == Packed(old(out[..]), vals[..n])
  {
    ghost var prev := out[..];
    assert vals[..0] == [];
    assert Packed(prev, vals[..0]) == prev;
    var k := 0;
    while k < n
      invariant 0 <= k <= n
      invariant out[..] == Packed(prev, vals[..k])
    {
      var j := k / 2;
      PackedStep(prev, vals[..n], k);
      assert vals[..n][..k] == vals[..k] && vals[..n][..k + 1] == vals[..k + 1];
      if k % 2 == 0 {
        out[j] := (out[j] / 256) * 256 + vals[k] % 256;
      } else {
        out[j] := vals[k] * 256 + out[j] % 256;
      }
      k := k + 1;
    }
  }

  /**
   * Line 517 of mtb_ml_utils_model_quantize in a TFLM build whose
   * MTB_ML_DATA_T is int16_t, as written: the int16 buffer is handed to the
   * int8 conversion, so the int8 results land two to an element.
   */
  method TflmQuantizeInt16AsWritten(xs: array?<real>, out: array?<int>, size: int, scale: real, zeroPoint: int, cmsisDsp: bool)
    returns (status: Status)
    requires xs != null && out != null && size > 0 ==> size <= xs.Length && size <= out.Length
    modifies out
    ensures status == BadArg <==> xs == null || out == null || size <= 0 || scale <= 0.0
    ensures status == BadArg ==> out == null || unchanged(out)
    ensures status == Success ==>
      size > 0 && scale > 0.0 && xs != null && out != null
      && out[..] == Packed(old(out[..]), AffineAll(xs[..size], scale, zeroPoint))
  {
    if xs == null || out == null || size <= 0 || scale <= 0.0 {
      return BadArg;
    }
    var bytes := new int[size];
    status := TflmFltToInt8(xs, bytes, size, scale, zeroPoint, cmsisDsp);
    assert bytes[..size] == AffineAll(xs[..size], scale, zeroPoint);
    PackInt8(bytes, size, out);
  }

  /**
   * In such a build, the inputs [0.0, 1.0] with scale 1 and zero point 0
   * leave 256 in element 0 and element 1 untouched, where one value per
   * element would give 0 and 1.
   */
  lemma PackedQuantizeExample(prev: seq<int>)
    requires |prev| == 2
    ensures AffineAll([0.0, 1.0], 1.0, 0) == [0, 1]
    ensures Packed(prev, AffineAll([0.0, 1.0], 1.0, 0)) == [256, prev[1]]
  {
    var v := AffineAll([0.0, 1.0], 1.0, 0);
    assert v[0] == AffineToInt8(0.0, 1.0, 0) == 0;
    assert v[1] == AffineToInt8(1.0, 1.0, 0) == 1;
    assert v == [0, 1];
    assert Packed(prev, v)[0] == 256;
  }

  /** The integer width MTB_ML_DATA_T has in an integer build. */
  function QuantBits(d: DataType): (bits: nat)
    requires d != Float32
    ensures bits == 8 || bits == 16
    ensures bits == 8 * DataBytes(d)
  {
    if d == Int8x8 then 8 else 16
  }

  /** mtb_ml_utils_convert_flt_to_int: int8 or int16 by build; a successful no-op in float builds. */
  method ConvertFltToInt(build: Build, xs: array?<real>, out: array?<int>, size: int, q: int)
    returns (status: Status)
    requires xs != null && out != null && size > 0 ==> size <= xs.Length && size <= out.Length
    modifies out
    ensures status == Success || status == BadArg
    ensures build.data == Float32 ==> status == Success && (out == null || unchanged(out))
    ensures build.data != Float32 ==>
      (status == BadArg <==> xs == null || out == null || size <= 0 || q < 0 || q > QuantBits(build.data) - 1)
    ensures build.data != Float32 && status == BadArg ==> out == null || unchanged(out)
    ensures build.data != Float32 && status == Success ==>
      (forall i :: 0 <= i < size ==> out[i] == QToFixed(xs[i], q, QuantBits(build.data))) &&
      (forall i :: size <= i < out.Length ==> out[i] == old(out[i]))
  {
    match build.data
    case Int8x8 =>
      status := FltToInt8(xs, out, size, q, build.cmsisDsp);
    case Int16x16 =>
      status := FltToInt16(xs, out, size, q, build.cmsisDsp);
    case Int16x8 =>
      status := FltToInt16(xs, out, size, q, build.cmsisDsp);
    case Float32 =>
      status := Success;
  }

  // ---------------------------------------------------------------------
  // Model-level quantise / dequantise.

  /** The quantisation parameters a model runtime object carries. */
  datatype QuantParams = QuantParams(
    inputSize: int, inputQn: int, inputScale: real, inputZeroPoint: int,
    outputSize: int, outputQn: int, outputScale: real, outputZeroPoint: int)

  /**
   * mtb_ml_utils_model_quantize: quantises input_size floats for the model's
   * input, by the Q factor (fixed-point engine) or by scale and zero point (TFLM).
   */
  method ModelQuantize(build: Build, obj: Option<QuantParams>, input: array?<real>, quantized: array?<int>)
    returns (status: Status)
    requires obj.Some? && input != null && quantized != null && obj.value.inputSize > 0 ==>
      obj.value.inputSize <= input.Length && obj.value.inputSize <= quantized.Length
    modifies quantized
    ensures obj.None? || input == null || quantized == null ==> status == BadArg
    ensures status == BadArg || build.data == Float32 ==> quantized == null || unchanged(quantized)
    ensures obj.Some? && input != null && quantized != null && build.data == Float32 ==> status == Success
    ensures obj.Some? && input != null && quantized != null && build.data != Float32 && build.engine == Ifx ==>
      var p := obj.value;
      (status == BadArg <==> p.inputSize <= 0 || p.inputQn < 0 || p.inputQn > QuantBits(build.data) - 1) &&
      (status == Success ==> forall i :: 0 <= i < p.inputSize ==>
         quantized[i] == QToFixed(input[i], p.inputQn, QuantBits(build.data)))
    ensures obj.Some? && input != null && quantized != null && build.data != Float32 && build.engine == Tflm ==>
      var p := obj.value;
      (status == BadArg <==> p.inputSize <= 0 || p.inputScale <= 0.0) &&
      (status == Success ==> forall i :: 0 <= i < p.inputSize ==>
         quantized[i] == AffineToInt8(input[i], p.inputScale, p.inputZeroPoint))
    ensures obj.Some? && quantized != null && status == Success ==>
      forall i :: obj.value.inputSize <= i < quantized.Length && 0 <= i ==> quantized[i] == old(quantized[i])
    ensures status == Success || status == BadArg
  {
    if obj.None? || input == null || quantized == null {
      return BadArg;
    }
    if build.data == Float32 {
      return Success;
    }
    var p := obj.value;
    if build.engine == Ifx {
      status := ConvertFltToInt(build, input, quantized, p.inputSize, p.inputQn);
    } else {
      status := TflmFltToInt8(input, quantized, p.inputSize, p.inputScale, p.inputZeroPoint, build.cmsisDsp);
    }
  }

  /**
   * mtb_ml_utils_model_dequantize: turns the model's output_size outputs into
   * floats, by the Q factor (fixed-point engine), by zero point and scale
   * (TFLM), or by copying (float builds). `output` holds obj->output.
   */
  method ModelDequantize(build: Build, obj: Option<QuantParams>, output: array<real>, deq: array?<real>)
    returns (status: Status)
    requires obj.Some? && deq != null && obj.value.outputSize > 0 ==>
      obj.value.outputSize <= output.Length && obj.value.outputSize <= deq.Length
    modifies deq
    ensures status == Success || status == BadArg
    ensures obj.None? || deq == null ==> status == BadArg
    ensures status == BadArg ==> deq == null || unchanged(deq)
    ensures obj.Some? && deq != null && build.data != Float32 && build.engine == Ifx ==>
      var p := obj.value;
      (status == BadArg <==> p.outputSize <= 0 || p.outputQn < 0 || p.outputQn > MaxQ(build.data)) &&
      (status == Success ==> forall i :: 0 <= i < p.outputSize ==>
         deq[i] == FixedToReal(old(output[i]), p.outputQn))
    ensures obj.Some? && deq != null && build.data != Float32 && build.engine == Tflm ==>
      var p := obj.value;
      status == Success &&
      forall i :: 0 <= i < p.outputSize ==>
        deq[i] == AffineToReal(Trunc(old(output[i])), p.outputScale, p.outputZeroPoint)
    ensures obj.Some? && deq != null && build.data == Float32 ==>
      status == Success && forall i :: 0 <= i < obj.value.outputSize ==> deq[i] == old(output[i])
    ensures obj.Some? && deq != null && status == Success ==>
      forall i :: obj.value.outputSize <= i < deq.Length && 0 <= i ==> deq[i] == old(deq[i])
  {
    if obj.None? || deq == null {
      return BadArg;
    }
    var p := obj.value;
    if build.data != Float32 && build.engine == Ifx {
      status := ConvertIntToFlt(build.data, output, deq, p.outputSize, p.outputQn);
      return;
    }
    ghost var src := output[..];
    var k := 0;
    var size := p.outputSize;
    while size > 0
      invariant k == if p.outputSize > 0 then p.outputSize - size else 0
      invariant size <= 0 ==> k == (if p.outputSize > 0 then p.outputSize else 0)
      invariant 0 <= k
      invariant p.outputSize > 0 ==> 0 <= size <= p.outputSize
      invariant forall j :: 0 <= j < k ==>
        deq[j] == if build.data == Float32 then src[j]
                  else AffineToReal(Trunc(src[j]), p.outputScale, p.outputZeroPoint)
      invariant forall j :: k <= j < deq.Length ==> deq[j] == old(deq[j])
      invariant forall j :: k <= j < output.Length ==> output[j] == src[j]
    {
      if build.data == Float32 {
        deq[k] := output[k];
      } else {
        deq[k] := AffineToReal(Trunc(output[k]), p.outputScale, p.outputZeroPoint);
      }
      k := k + 1;
      size := size - 1;
    }
    status := Success;
  }
}
