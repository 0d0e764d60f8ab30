// The profiling accumulator that every TFLM run updates: per cycle domain a
// running sum, a peak and the 0-based frame at which the peak was seen,
// plus a frame counter shared by the domains.

module Profiling {
  import opened Common
  import Conversions

  /** One cycle domain: the 64-bit running sum, the peak, and the 32-bit frame index of the peak. */
  datatype Tally = Tally(sum: u64, peak: nat, peakFrame: u32)

  /** The state profile_config leaves behind when it enables profiling. */
  const Cleared: Tally := Tally(0, 0, 0)

  /**
   * One profiled frame with the given cycle count, seen while the frame
   * counter reads `frame`: the peak and its frame move only on a strictly
   * larger count, and the count is added to the sum modulo 2^64.
   */
  function Observe(t: Tally, value: nat, frame: u32): (r: Tally)
    ensures r.peak >= value && r.peak >= t.peak
    ensures r.peak == t.peak || r.peak == value
    ensures r.peakFrame == (if value > t.peak then frame else t.peakFrame)
    ensures (r.sum - (t.sum + value)) % Two64 == 0
  {
    if value > t.peak then Tally(Wrap64(t.sum + value), value, frame)
    else Tally(Wrap64(t.sum + value), t.peak, t.peakFrame)
  }

  /** The exact sum of a sequence of cycle counts. */
  function Sum(vs: seq<nat>): nat
  {
    if |vs| == 0 then 0 else Sum(vs[..|vs| - 1]) + vs[|vs| - 1]
  }

  /** The tally after the given counts were observed, in order, from a cleared state. */
  function Replay(vs: seq<nat>): Tally
    requires |vs| <= Two32
  {
    if |vs| == 0 then Cleared
    else Observe(Replay(vs[..|vs| - 1]), vs[|vs| - 1], |vs| - 1)
  }

  /** Observing one more count extends the replay by one frame. */
  lemma ReplayStep(vs: seq<nat>, i: nat)
    requires i < |vs| <= Two32
    ensures Replay(vs[..i + 1]) == Observe(Replay(vs[..i]), vs[i], i)
  {
    assert vs[..i + 1][..i] == vs[..i];
  }

  /** The accumulated sum is the exact sum of all counts, reduced modulo 2^64. */
  lemma {:induction false} ReplaySum(vs: seq<nat>)
    requires |vs| <= Two32
    ensures Replay(vs).sum == Wrap64(Sum(vs))
  {
    if |vs| > 0 {
      var init := vs[..|vs| - 1];
      ReplaySum(init);
      var last := vs[|vs| - 1];
      assert Replay(vs).sum == Wrap64(Replay(init).sum + last);
      assert Replay(init).sum == Sum(init) % Two64;
      ModAddCongruent(Sum(init), last);
    }
  }

  lemma ModAddCongruent(a: nat, b: nat)
    ensures (a % Two64 + b) % Two64 == (a + b) % Two64
  {
  }

  /**
   * The peak is the largest count (0 when there were none or all were 0),
   * and the peak frame is the first frame that reached it.
   */
  lemma {:induction false} ReplayPeak(vs: seq<nat>)
    requires |vs| <= Two32
    ensures forall i :: 0 <= i < |vs| ==> vs[i] <= Replay(vs).peak
    ensures Replay(vs).peak == 0 ==> Replay(vs).peakFrame == 0
    ensures Replay(vs).peak > 0 ==>
      Replay(vs).peakFrame < |vs| &&
      vs[Replay(vs).peakFrame] == Replay(vs).peak &&
      forall j :: 0 <= j < Replay(vs).peakFrame ==> vs[j] < Replay(vs).peak
  {
    if |vs| > 0 {
      var init := vs[..|vs| - 1];
      ReplayPeak(init);
      var t := Replay(init);
      var last := vs[|vs| - 1];
      assert Replay(vs) == Observe(t, last, |vs| - 1);
      forall i | 0 <= i < |vs| - 1
        ensures vs[i] == init[i]
      {
      }
    }
  }

  // ---------------------------------------------------------------------
  // What a run reports to the profiler.

  /** The platform components that change the profiling code. */
  datatype Platform = Platform(rtos: bool, u55: bool, nnlite2: bool)

  /** The board has an NPU, whose counters profile_config clears. */
  predicate HasNpu(p: Platform)
  {
    p.u55 || p.nnlite2
  }

  /** The NPU : CPU clock ratio mtb_ml_init stores in mtb_ml_norm_clk_freq: a quotient of two clock frequencies. */
  type ClockRatio = r: real | r > 0.0 witness 1.0

  /**
   * One inference of the 64-bit profiling variants as the platform sees it:
   * the engine's status (0 is kTfLiteOk), the time-stamp counter before and
   * after, the NPU cycle count mtb_ml_npu_cycles holds afterwards, and the
   * clock ratio in force.
   */
  datatype Invocation = Invocation(result: int, start: u64, end: u64, npuCycles: u64, normClkFreq: ClockRatio)

  /**
   * The NPU cycles expressed in CPU cycles: the NPU count divided by the
   * clock ratio, truncated by the cast to uint64_t.
   */
  function NormNpuCycles(inv: Invocation): (n: nat)
    ensures n as real * inv.normClkFreq <= inv.npuCycles as real < (n + 1) as real * inv.normClkFreq
  {
    var v := inv.npuCycles as real / inv.normClkFreq;
    var t := Conversions.Trunc(v);
    assert t as real * inv.normClkFreq <= v * inv.normClkFreq;
    assert v * inv.normClkFreq < (t + 1) as real * inv.normClkFreq;
    t
  }

  /**
   * The normalised share grows with the NPU count and shrinks as the NPU
   * clock gets faster relative to the CPU clock.
   */
  lemma NormNpuCyclesMonotone(a: Invocation, b: Invocation)
    requires a.npuCycles <= b.npuCycles && b.normClkFreq <= a.normClkFreq
    ensures NormNpuCycles(a) <= NormNpuCycles(b)
  {
    var na, nb := NormNpuCycles(a), NormNpuCycles(b);
    if na > nb {
      calc {
        (nb + 1) as real * b.normClkFreq;
      <= { assert (nb + 1) as real <= na as real; }
        na as real * b.normClkFreq;
      <= na as real * a.normClkFreq;
      <= a.npuCycles as real;
      <= b.npuCycles as real;
      }
      assert false;
    }
  }

  /** The cycle-count check of an NPU build: the normalised NPU share does not exceed the CPU delta. */
  predicate CycleCountOk(inv: Invocation, countsNpu: bool)
  {
    countsNpu ==> NormNpuCycles(inv) <= Wrap64(inv.end - inv.start)
  }

  /** The CPU cycles a run is charged: the 64-bit time-stamp delta, less the normalised NPU share when NPU cycles are counted. */
  function CpuShare(inv: Invocation, countsNpu: bool): (n: nat)
    requires CycleCountOk(inv, countsNpu)
  {
    Wrap64(inv.end - inv.start) - (if countsNpu then NormNpuCycles(inv) else 0)
  }

  /** The CPU shares of a sequence of runs. */
  function CpuShares(runs: seq<Invocation>, countsNpu: bool): (vs: seq<nat>)
    requires forall i :: 0 <= i < |runs| ==> CycleCountOk(runs[i], countsNpu)
    ensures |vs| == |runs|
  {
    seq(|runs|, i requires 0 <= i < |runs| => CpuShare(runs[i], countsNpu))
  }

  /** The NPU counts of a sequence of runs. */
  function NpuCounts(runs: seq<Invocation>): (vs: seq<nat>)
    ensures |vs| == |runs|
  {
    seq(|runs|, i requires 0 <= i < |runs| => runs[i].npuCycles)
  }

  /** One inference of the 32-bit profiling variants: the engine's status and a 32-bit time stamp before and after. */
  datatype Invocation32 = Invocation32(result: int, start: u32, end: u32)

  /** The cycles such a run is charged: the 32-bit time-stamp delta. */
  function Elapsed32(inv: Invocation32): u32
  {
    Wrap32(inv.end - inv.start)
  }

  /** The 32-bit deltas of a sequence of runs. */
  function Elapsed32s(runs: seq<Invocation32>): (vs: seq<nat>)
    ensures |vs| == |runs|
  {
    seq(|runs|, i requires 0 <= i < |runs| => Elapsed32(runs[i]))
  }
}
