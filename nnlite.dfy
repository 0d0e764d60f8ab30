// The NNLite NPU cycle accumulator: the driver reports profile points, an
// ACCELERATOR_START point stamps the start of an NPU job and an
// ACCELERATOR_DONE point adds the job's duration to the global NPU cycle
// count. Also the kernel configuration init installs before starting the
// driver.

module NnLite {
  import opened Common
  import opened Profiling

  /** The profile points the driver reports; only two of them are acted on. */
  datatype ProfilePoint = AcceleratorStart | AcceleratorDone | OtherPoint(code: u32)

  /** The accumulator's state: mtb_ml_nnlite_frame_start and mtb_ml_npu_cycles. */
  datatype NpuClock = NpuClock(frameStart: u64, cycles: u64)

  /** The effect of one profile point reported when the time stamp reads `now`. */
  function Step(c: NpuClock, point: ProfilePoint, now: u64): (r: NpuClock)
  {
    match point
    case AcceleratorStart => NpuClock(now, c.cycles)
    case AcceleratorDone => NpuClock(c.frameStart, Wrap64(c.cycles + Wrap64(now - c.frameStart)))
    case OtherPoint(_) => c
  }

  /** A profile point together with the time stamp it was reported at. */
  datatype ProfEvent = ProfEvent(point: ProfilePoint, now: u64)

  /** The state after a sequence of profile points, in order. */
  function Apply(c: NpuClock, events: seq<ProfEvent>): NpuClock
  {
    if |events| == 0 then c
    else
      var last := events[|events| - 1];
      Step(Apply(c, events[..|events| - 1]), last.point, last.now)
  }

  /** One NPU job: the time stamps at its start and done points. */
  datatype Job = Job(start: u64, done: u64)

  /** The profile points a sequence of jobs reports: start then done, job after job. */
  function Points(jobs: seq<Job>): (events: seq<ProfEvent>)
    ensures |events| == 2 * |jobs|
  {
    if |jobs| == 0 then []
    else
      var last := jobs[|jobs| - 1];
      Points(jobs[..|jobs| - 1]) + [ProfEvent(AcceleratorStart, last.start), ProfEvent(AcceleratorDone, last.done)]
  }

  /** The duration of each job, as a 64-bit difference. */
  function Durations(jobs: seq<Job>): (ds: seq<nat>)
    ensures |ds| == |jobs|
  {
    seq(|jobs|, i requires 0 <= i < |jobs| => Wrap64(jobs[i].done - jobs[i].start))
  }

  /** A start point only stamps; a done point adds now minus the stamp; any other point changes nothing. */
  lemma StepEffect(c: NpuClock, point: ProfilePoint, now: u64)
    ensures point.AcceleratorStart? ==> Step(c, point, now).cycles == c.cycles && Step(c, point, now).frameStart == now
    ensures point.AcceleratorDone? ==>
      Step(c, point, now).frameStart == c.frameStart
      && Step(c, point, now).cycles == (c.cycles + Wrap64(now - c.frameStart)) % Two64
      && (c.frameStart <= now && c.cycles + (now - c.frameStart) < Two64 ==>
            Step(c, point, now).cycles == c.cycles + (now - c.frameStart))
    ensures point.OtherPoint? ==> Step(c, point, now) == c
  {
  }

  /** Applying two sequences one after the other is applying their concatenation. */
  lemma {:induction false} ApplyAppend(c: NpuClock, a: seq<ProfEvent>, b: seq<ProfEvent>)
    ensures Apply(c, a + b) == Apply(Apply(c, a), b)
  {
    if |b| > 0 {
      var b0 := b[..|b| - 1];
      ApplyAppend(c, a, b0);
      assert (a + b)[..|a + b| - 1] == a + b0;
    } else {
      assert a + b == a;
    }
  }

  /** Points other than start and done leave the accumulator alone. */
  lemma {:induction false} OtherPointsIgnored(c: NpuClock, events: seq<ProfEvent>)
    requires forall i :: 0 <= i < |events| ==> events[i].point.OtherPoint?
    ensures Apply(c, events) == c
  {
    if |events| > 0 {
      OtherPointsIgnored(c, events[..|events| - 1]);
    }
  }

  /** One job adds its duration to the count. */
  lemma ApplyJob(c: NpuClock, j: Job)
    ensures Apply(c, [ProfEvent(AcceleratorStart, j.start), ProfEvent(AcceleratorDone, j.done)]).cycles
            == Wrap64(c.cycles + Wrap64(j.done - j.start))
  {
    var pair := [ProfEvent(AcceleratorStart, j.start), ProfEvent(AcceleratorDone, j.done)];
    assert pair[..1][..0] == [];
    assert Apply(c, pair[..1]) == NpuClock(j.start, c.cycles);
  }

  /**
   * Several jobs within one inference (a composite kernel) accumulate: the
   * count grows by the sum of their durations, modulo 2^64.
   */
  lemma {:induction false} JobsAccumulate(c: NpuClock, jobs: seq<Job>)
    ensures Apply(c, Points(jobs)).cycles == Wrap64(c.cycles + Sum(Durations(jobs)))
  {
    if |jobs| > 0 {
      var init := jobs[..|jobs| - 1];
      var last := jobs[|jobs| - 1];
      var pair := [ProfEvent(AcceleratorStart, last.start), ProfEvent(AcceleratorDone, last.done)];
      assert Points(jobs) == Points(init) + pair;
      JobsAccumulate(c, init);
      ApplyAppend(c, Points(init), pair);
      ApplyJob(Apply(c, Points(init)), last);
      DurationsStep(jobs);
      WrapThenAdd(c.cycles + Sum(Durations(init)), Wrap64(last.done - last.start));
    }
  }

  /** The durations of all jobs sum to those of all but the last, plus the last one's. */
  lemma DurationsStep(jobs: seq<Job>)
    requires |jobs| > 0
    ensures Sum(Durations(jobs)) == Sum(Durations(jobs[..|jobs| - 1])) + Wrap64(jobs[|jobs| - 1].done - jobs[|jobs| - 1].start)
  {
    var ds := Durations(jobs);
    assert ds[..|ds| - 1] == Durations(jobs[..|jobs| - 1]);
  }

  /** Reducing modulo 2^64 before adding changes nothing after the final reduction. */
  lemma WrapThenAdd(x: nat, d: nat)
    ensures Wrap64(Wrap64(x) + d) == Wrap64(x + d)
  {
    ModAddCongruent(x, d);
  }

  /** What the run resets the count to before an inference, followed by the inference's jobs. */
  lemma InferenceCycles(frameStart: u64, jobs: seq<Job>)
    ensures Apply(NpuClock(frameStart, 0), Points(jobs)).cycles == Wrap64(Sum(Durations(jobs)))
  {
    JobsAccumulate(NpuClock(frameStart, 0), jobs);
  }

  // ---------------------------------------------------------------------
  // The driver state.

  /** Which function a kernel-configuration hook points at. */
  datatype Hook = Unset | Nop | ProfGetHook

  /** The fields of cy_kernel_config that init fills. */
  datatype KernelConfig = KernelConfig(hasMutex: bool, hasSem: bool, profStart: Hook, profStop: Hook, profGetCount: Hook)

  /** The module's globals: the start stamp, the NPU cycle count, the kernel configuration and the NPU clock. */
  class NpuAccumulator {
    var frameStart: u64
    var npuCycles: u64
    var config: KernelConfig
    var npuClkFreq: u32

    constructor()
      ensures frameStart == 0 && npuCycles == 0 && npuClkFreq == 0
      ensures config == KernelConfig(false, false, Unset, Unset, Unset)
    {
      frameStart := 0;
      npuCycles := 0;
      config := KernelConfig(false, false, Unset, Unset, Unset);
      npuClkFreq := 0;
    }

    /** The accumulator as a value. */
    function Clock(): NpuClock
      reads this
    {
      NpuClock(frameStart, npuCycles)
    }

    /** mtb_ml_nnlite_prof_get: act on one profile point; `now` is the time stamp read when it is handled. */
    method ProfGet(point: ProfilePoint, now: u64)
      modifies this`frameStart, this`npuCycles
      ensures Clock() == Step(old(Clock()), point, now)
    {
      if point == AcceleratorStart {
        frameStart := now;
      } else if point == AcceleratorDone {
        var tmp := now;
        npuCycles := Wrap64(npuCycles + Wrap64(tmp - frameStart));
      }
    }

    /**
     * mtb_ml_nnlite_init: fill the kernel configuration (mutex and semaphore
     * only under an RTOS, no-op start/stop hooks, prof_get as the count
     * hook), then start the kernel; NPU_INIT_ERROR when that fails, in which
     * case the NPU clock is not set.
     */
    method Init(rtos: bool, kernelInitOk: bool, systemCoreClock: u32) returns (status: Status)
      modifies this`config, this`npuClkFreq
      ensures config == KernelConfig(rtos, rtos, Nop, Nop, ProfGetHook)
      ensures status == Success || status == NpuInitError
      ensures status == Success <==> kernelInitOk
      ensures npuClkFreq == (if kernelInitOk then systemCoreClock else old(npuClkFreq))
    {
      config := KernelConfig(rtos, rtos, Nop, Nop, ProfGetHook);
      if !kernelInitOk {
        return NpuInitError;
      }
      npuClkFreq := systemCoreClock;
      status := Success;
    }
  }
}
