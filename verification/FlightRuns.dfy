/** Whole runs of the control loop. The first part shows that the loop drives each of its modules
    exactly as that module's own run says; the second draws the end-to-end consequences. */
module FlightRuns {
  import opened Bytes
  import opened Floats
  import opened Ports
  import opened HalSil
  import opened ControlLoop
  import RcParse
  import Sbus
  import Failsafe
  import opened InputTerms
  import History = FailsafeHistory
  import opened Vectors
  import Estimator
  import Pid
  import Mixer

  datatype LoopInput = LoopInput(st: StateRc, armTest: bool)

  /** What stays fixed over a run. */
  datatype Setup = Setup(cfg: Config, atan2: Estimator.Atan2, resetReason: int)

  function TickAt(u: Setup, s: LoopState, x: LoopInput): TickResult {
    TickStep(u.cfg, u.atan2, x.armTest, s, x.st)
  }

  /** The loop after its first n ticks. */
  function Run(u: Setup, ins: seq<LoopInput>, n: nat): LoopState
    requires n <= |ins|
  {
    if n == 0 then Boot(u.resetReason) else TickAt(u, Run(u, ins, n - 1), ins[n - 1]).next
  }

  lemma RunZero(u: Setup, ins: seq<LoopInput>)
    ensures Run(u, ins, 0) == Boot(u.resetReason)
  {
  }

  lemma {:induction false} TicksCounted(u: Setup, ins: seq<LoopInput>, n: nat)
    requires n <= |ins|
    ensures Run(u, ins, n).tick == n
  {
    hide FsInputOf, Failsafe.Step, Estimator.Step, Control, RcOf, FeedRaw, Gate, EstCall;
    if n > 0 {
      TicksCounted(u, ins, n - 1);
    }
  }

  /** The modules' states after one more tick. */
  lemma RunNext(u: Setup, ins: seq<LoopInput>, n: nat)
    requires n < |ins|
    ensures var (s, t, st) := (Run(u, ins, n), Run(u, ins, n + 1), ins[n].st);
            && t.rc == FeedRaw(s.rc, st).0
            && t.fs == Failsafe.Step(s.fs, FsInputOf(s, st, ins[n].armTest))
            && t.est == Estimator.Step(s.est, EstCall(s, t.fs, st), u.atan2)
  {
    hide FsInputOf, Failsafe.Step, Estimator.Step, Control, RcOf, FeedRaw, Gate, EstCall;
  }

  /** The PWM call of tick n. */
  function PwmAt(u: Setup, ins: seq<LoopInput>, n: nat): PwmCall
    requires n < |ins|
  {
    TickAt(u, Run(u, ins, n), ins[n]).pwm
  }

  // ---------------------------------------------------------------------------------------------
  // Projections
  // ---------------------------------------------------------------------------------------------

  /** What the safety state machine is given at each tick. */
  function FsInputs(u: Setup, ins: seq<LoopInput>): (xs: seq<Failsafe.FsInput>)
    ensures |xs| == |ins|
    ensures forall j | 0 <= j < |ins| :: xs[j] == FsInputOf(Run(u, ins, j), ins[j].st, ins[j].armTest)
  {
    seq(|ins|, j requires 0 <= j < |ins| => FsInputOf(Run(u, ins, j), ins[j].st, ins[j].armTest))
  }

  /** What the estimator is asked to do at each of the first n ticks. */
  function EstCalls(u: Setup, ins: seq<LoopInput>, n: nat): (cs: seq<Estimator.Call>)
    requires n <= |ins|
    ensures |cs| == n
  {
    if n == 0 then []
    else
      var s := Run(u, ins, n - 1);
      EstCalls(u, ins, n - 1) + [EstCall(s, Run(u, ins, n).fs, ins[n - 1].st)]
  }

  lemma {:induction false} SafetyProjects(u: Setup, ins: seq<LoopInput>, n: nat)
    requires n <= |ins|
    ensures Run(u, ins, n).fs == History.Run(u.resetReason, FsInputs(u, ins), n)
  {
    hide Run, FsInputOf, Failsafe.Step;
    if n == 0 {
      RunZero(u, ins);
    } else {
      SafetyProjects(u, ins, n - 1);
      RunNext(u, ins, n - 1);
    }
  }

  lemma {:induction false} EstimatorProjects(u: Setup, ins: seq<LoopInput>, n: nat)
    requires n <= |ins|
    ensures Run(u, ins, n).est == Estimator.Run(EstCalls(u, ins, n), u.atan2)
  {
    hide Run, Estimator.Step, EstCall;
    if n == 0 {
      RunZero(u, ins);
    } else {
      EstimatorProjects(u, ins, n - 1);
      RunNext(u, ins, n - 1);
      var calls := EstCalls(u, ins, n);
      assert calls[..|calls| - 1] == EstCalls(u, ins, n - 1);
    }
  }

  /** The RC chunks of the first n ticks; a tick without bytes feeds nothing. */
  function Chunks(ins: seq<LoopInput>, n: nat): (cs: seq<seq<Byte>>)
    requires n <= |ins|
    ensures RcParse.Bounded(cs)
  {
    if n == 0 then []
    else
      var raw := RawBytes(ins[n - 1].st, RAW_CAP);
      if raw == [] then Chunks(ins, n - 1) else Chunks(ins, n - 1) + [raw]
  }

  /** Frames accepted at tick j. */
  function FramesAt(u: Setup, ins: seq<LoopInput>, j: nat): seq<seq<Byte>>
    requires j < |ins|
  {
    FeedRaw(Run(u, ins, j).rc, ins[j].st).1
  }

  function FramesUpTo(u: Setup, ins: seq<LoopInput>, n: nat): seq<seq<Byte>>
    requires n <= |ins|
  {
    if n == 0 then [] else FramesUpTo(u, ins, n - 1) + FramesAt(u, ins, n - 1)
  }

  lemma {:induction false} FeedAllSnoc(s: RcParse.ParserState, cs: seq<seq<Byte>>, c: seq<Byte>)
    ensures var (t, f) := RcParse.FeedAll(s, cs);
            var (t', f') := RcParse.FeedStep(t, c);
            RcParse.FeedAll(s, cs + [c]) == (t', f + f')
    decreases |cs|
  {
    hide RcParse.FeedStep;
    if cs == [] {
      assert cs + [c] == [c] && [c][1..] == [];
      var (t', f') := RcParse.FeedStep(s, c);
      assert RcParse.FeedAll(t', []) == (t', []);
      assert f' + [] == f' && [] + f' == f';
    } else {
      var (s1, f1) := RcParse.FeedStep(s, cs[0]);
      assert (cs + [c])[1..] == cs[1..] + [c];
      FeedAllSnoc(s1, cs[1..], c);
      var (t, f) := RcParse.FeedAll(s1, cs[1..]);
      var f' := RcParse.FeedStep(t, c).1;
      assert f1 + (f + f') == (f1 + f) + f';
    }
  }

  lemma {:induction false} ParserProjects(u: Setup, ins: seq<LoopInput>, n: nat)
    requires n <= |ins|
    ensures RcParse.FeedAll(RcParse.CLEARED, Chunks(ins, n)) == (Run(u, ins, n).rc, FramesUpTo(u, ins, n))
  {
    hide Run, RcParse.FeedStep, RcParse.FeedAll, Chunks, FramesUpTo;
    if n == 0 {
      RunZero(u, ins);
      NothingFed(RcParse.CLEARED);
      NoChunks(u, ins);
    } else {
      ParserProjects(u, ins, n - 1);
      ParserTick(u, ins, n - 1);
      if |Chunks(ins, n)| > |Chunks(ins, n - 1)| {
        FeedAllSnoc(RcParse.CLEARED, Chunks(ins, n - 1), RawBytes(ins[n - 1].st, RAW_CAP));
      }
    }
  }

  lemma NoChunks(u: Setup, ins: seq<LoopInput>)
    ensures Chunks(ins, 0) == [] && FramesUpTo(u, ins, 0) == []
  {
  }

  /** One tick of the parser: nothing at all without bytes, one call of feed with them. */
  lemma ParserTick(u: Setup, ins: seq<LoopInput>, n: nat)
    requires n < |ins|
    ensures var (raw, cs, ds) := (RawBytes(ins[n].st, RAW_CAP), Chunks(ins, n), Chunks(ins, n + 1));
            var (p, q, fs) := (Run(u, ins, n).rc, Run(u, ins, n + 1).rc, FramesUpTo(u, ins, n));
            if raw == [] then ds == cs && q == p && FramesUpTo(u, ins, n + 1) == fs
            else
              && ds == cs + [raw] && q == RcParse.FeedStep(p, raw).0
              && FramesUpTo(u, ins, n + 1) == fs + RcParse.FeedStep(p, raw).1
  {
    hide Run, RawBytes, RcParse.FeedStep, FeedRaw;
    RunNext(u, ins, n);
    FedOrNot(Run(u, ins, n).rc, ins[n].st);
    assert FramesUpTo(u, ins, n) + [] == FramesUpTo(u, ins, n);
  }

  lemma FedOrNot(p: RcParse.ParserState, st: StateRc)
    ensures var raw := RawBytes(st, RAW_CAP); FeedRaw(p, st) == if raw == [] then (p, []) else RcParse.FeedStep(p, raw)
  {
    hide RawBytes, RcParse.FeedStep;
  }

  lemma NothingFed(s: RcParse.ParserState)
    ensures RcParse.FeedAll(s, []) == (s, [])
  {
  }

  /** The frames the loop has seen after any number of ticks are those of one scan of all the RC
      bytes delivered so far, however they were spread over the ticks. */
  lemma RcStreamIntact(u: Setup, ins: seq<LoopInput>, n: nat)
    requires n <= |ins|
    ensures var r := RcParse.Scan(RcParse.Flatten(Chunks(ins, n)));
            FramesUpTo(u, ins, n) == r.frames && Run(u, ins, n).rc == RcParse.ParserState(r.rest, |r.frames|)
  {
    hide RcParse.Scan, Run, FramesUpTo;
    ParserProjects(u, ins, n);
    RcParse.ChunkIndependence(Chunks(ins, n));
  }

  /** The rate inputs of the first n ticks of a closed-loop run. */
  function RateInputs(u: Setup, ins: seq<LoopInput>, n: nat): (xs: seq<Pid.RateInput>)
    requires n <= |ins|
    ensures |xs| == n
  {
    if n == 0 then []
    else
      var (s, st) := (Run(u, ins, n - 1), ins[n - 1].st);
      var rc := RcOf(s.rc, st);
      RateInputs(u, ins, n - 1)
      + [Pid.RateInput(ImuCtl(s.est, st.imu).gyro, SetpointOf(u.cfg, rc, Run(u, ins, n).est))]
  }

  lemma {:induction false} RateProjects(u: Setup, ins: seq<LoopInput>, n: nat)
    requires n <= |ins|
    ensures Run(u, ins, n).rate == (if u.cfg.mode == OpenLoop then Pid.RATE_AT_REST
                                    else Pid.RateRun(RateInputs(u, ins, n)))
  {
    hide FsInputOf, Failsafe.Step, Estimator.Step, RcOf, FeedRaw, Gate, Pid.RateStep, Pid.RateShift,
         Pid.RateDuties, Mixer.Duties, Mixer.ShiftOf, SetpointOf, ImuCtl;
    if n > 0 {
      RateProjects(u, ins, n - 1);
      var xs := RateInputs(u, ins, n);
      assert xs[..|xs| - 1] == RateInputs(u, ins, n - 1);
    }
  }

  // ---------------------------------------------------------------------------------------------
  // The end-to-end gate
  // ---------------------------------------------------------------------------------------------

  /** Mixer output always passes the range check, so the gate opens exactly on the three flags. */
  lemma GateOpens(d: seq<real>, armed: bool, failsafe: bool, imuValid: bool)
    requires |d| == 4 && forall k | 0 <= k < 4 :: 0.0 <= d[k] <= 1.0
    ensures Gate(Mixer.ToPwm(d), armed, failsafe, imuValid)
            == if armed && !failsafe && imuValid then Write(Mixer.ToPwm(d)) else Off
  {
  }

  /** The motors are written at tick n exactly when the input history has armed the craft and kept
      it armed, and the estimator's bad samples over the armed ticks have not run up to five. */
  lemma MotorsOnIff(u: Setup, ins: seq<LoopInput>, n: nat)
    requires n < |ins|
    ensures PwmAt(u, ins, n).Write? <==>
              && History.ArmedAfter(FaultBoot(u.resetReason), FsInputs(u, ins), n + 1)
              && Estimator.TrailingRun(Estimator.BadFlags(EstCalls(u, ins, n + 1))) < 5
  {
    hide FsInputOf, Failsafe.Step, Estimator.Step, Control, RcOf, FeedRaw, Gate, History.ArmedAfter,
         Estimator.Run, Estimator.BadFlags, EstCalls, History.Run, FsInputs;
    var next := Run(u, ins, n + 1);
    SafetyProjects(u, ins, n + 1);
    History.ArmedIsHistory(u.resetReason, FsInputs(u, ins), n + 1);
    History.RunCoherent(u.resetReason, FsInputs(u, ins), n + 1);
    EstimatorProjects(u, ins, n + 1);
    Estimator.DebounceIsTrailingRun(EstCalls(u, ins, n + 1), u.atan2);
    var s := Run(u, ins, n);
    GateOpens(Control(u.cfg, RcOf(s.rc, ins[n].st), ImuCtl(s.est, ins[n].st.imu), next.est, s.rate).duties,
              next.fs.latch.armed, next.fs.latch.active, next.est.att.imuValid);
  }

  /** A frame flag reaches the state machine exactly when a frame was decoded that very tick. */
  lemma FrameFlag(u: Setup, ins: seq<LoopInput>, n: nat)
    requires n < |ins|
    ensures History.FrameAt(FsInputs(u, ins), n) <==> FramesAt(u, ins, n) != []
    ensures FsInputs(u, ins)[n].rc.tUs == FsInputs(u, ins)[n].nowUs == ins[n].st.tUs
  {
    hide FeedRaw, Run;
  }

  /** Motors turn only on a tick whose own input allows it: an arm-test request, or a frame decoded
      that very tick with the arm switch on; and only while no fault of the history still stands. */
  lemma MotorsNeedThisTick(u: Setup, ins: seq<LoopInput>, n: nat)
    requires n < |ins| && PwmAt(u, ins, n).Write?
    ensures ins[n].armTest || (FramesAt(u, ins, n) != [] && FsInputs(u, ins)[n].rc.armedSwitch)
    ensures History.Quiet(FaultBoot(u.resetReason), FsInputs(u, ins), n + 1)
  {
    hide FramesAt, Run, PwmAt, FsInputOf, Estimator.BadFlags, History.TenFresh;
    var (b, xs) := (FaultBoot(u.resetReason), FsInputs(u, ins));
    MotorsOnIff(u, ins, n);
    FrameFlag(u, ins, n);
    History.ArmedAfterStep(b, xs, n);
    ArmTestPassed(u, ins, n);
    if History.RisingAt(xs, n) {
      History.QuietAfterEdge(b, xs, n);
    }
  }

  lemma ArmTestPassed(u: Setup, ins: seq<LoopInput>, n: nat)
    requires n < |ins|
    ensures FsInputs(u, ins)[n].armTest == ins[n].armTest
  {
    hide RcOf, Run;
  }

  // ---------------------------------------------------------------------------------------------
  // Debounces, calibration, attitude
  // ---------------------------------------------------------------------------------------------

  /** Taking a finite bias off a gyro reading does not change whether the sample is bad. */
  lemma BiasKeepsBad(est: Estimator.EstState, imu: ImuSample)
    ensures ImuCtl(est, imu).Bad() == imu.Bad()
  {
  }

  /** The bad flags of the ticks that ended armed. */
  function ArmedBadFlags(u: Setup, ins: seq<LoopInput>, n: nat): seq<bool>
    requires n <= |ins|
  {
    if n == 0 then []
    else
      var before := ArmedBadFlags(u, ins, n - 1);
      if Run(u, ins, n).fs.latch.armed then before + [Defective(ins[n - 1].st.imu)] else before
  }

  lemma {:induction false} EstimatorSeesArmedTicks(u: Setup, ins: seq<LoopInput>, n: nat)
    requires n <= |ins|
    ensures Estimator.BadFlags(EstCalls(u, ins, n)) == ArmedBadFlags(u, ins, n)
  {
    hide Run, ImuCtl;
    if n > 0 {
      EstimatorSeesArmedTicks(u, ins, n - 1);
      BiasKeepsBad(Run(u, ins, n - 1).est, ins[n - 1].st.imu);
      var calls := EstCalls(u, ins, n);
      assert calls[..|calls| - 1] == EstCalls(u, ins, n - 1);
    }
  }

  /** The two IMU debounces refine different trailing runs: the state machine's runs over all ticks,
      the estimator's over the armed ones only. */
  lemma TwoDebounces(u: Setup, ins: seq<LoopInput>, n: nat)
    requires n <= |ins|
    ensures var s := Run(u, ins, n);
            && s.fs.seen.imuBadCount
               == Estimator.Capped(History.BadRun(FsInputs(u, ins), n), 5)
            && s.est.att.invalidCount
               == Estimator.Capped(Estimator.TrailingRun(ArmedBadFlags(u, ins, n)), 5)
  {
    hide Run, FsInputs, Estimator.Run, History.Run, History.BadRun, Estimator.TrailingRun, History.FreshRun;
    SafetyProjects(u, ins, n);
    History.CountersAreTrailingRuns(u.resetReason, FsInputs(u, ins), n);
    EstimatorProjects(u, ins, n);
    Estimator.DebounceIsTrailingRun(EstCalls(u, ins, n), u.atan2);
    EstimatorSeesArmedTicks(u, ins, n);
  }

  /** The bias changes only on ticks that end disarmed, never once calibration is done, and stays
      within the motion threshold; the attitude stays within the half turn. */
  lemma BiasAndAttitude(u: Setup, ins: seq<LoopInput>, n: nat)
    requires n < |ins|
    ensures var (s, t) := (Run(u, ins, n), Run(u, ins, n + 1));
            && (t.est.cal != s.est.cal ==> !t.fs.latch.armed && !s.est.Calibrated())
            && NormSq(t.est.cal.bias) <= 0.349 * 0.349
            && Estimator.InRange(t.est.att)
  {
    hide FsInputOf, Failsafe.Step, Control, RcOf, FeedRaw, Gate, Estimator.AttStep, Estimator.Run, EstCalls,
         Estimator.InRange;
    EstimatorProjects(u, ins, n + 1);
    var calls := EstCalls(u, ins, n + 1);
    Estimator.CalibrationSeparate(calls, u.atan2);
    Estimator.BiasBounded(Estimator.CalibrateCalls(calls));
    Estimator.AttitudeInRange(calls, u.atan2);
  }

  /** Anti-windup in the closed loop, on every tick of every rate or attitude run: after a tick that
      reported a negative shift no integral rises, after a positive one none falls. */
  lemma LoopAntiWindup(u: Setup, ins: seq<LoopInput>, n: nat)
    requires n < |ins| && u.cfg.mode != OpenLoop
    ensures var (s, t, shift) := (Run(u, ins, n).rate, Run(u, ins, n + 1).rate, Run(u, ins, n).satShift);
            Pid.IntegralsClamped(t) && (shift < 0.0 ==> Pid.NoneRises(s, t)) && (shift > 0.0 ==> Pid.NoneRises(t, s))
  {
    hide Pid.RateStep, Pid.IntegralsClamped, Pid.NoneRises, Pid.RateRun, Run, RateInputs;
    RateProjects(u, ins, n);
    Pid.RunClamped(RateInputs(u, ins, n));
    var x := RateNext(u, ins, n);
    Pid.RateStepLaw(Run(u, ins, n).rate, x);
    ShiftRemembered(u, ins, n);
  }

  lemma RateNext(u: Setup, ins: seq<LoopInput>, n: nat) returns (x: Pid.RateInput)
    requires n < |ins| && u.cfg.mode != OpenLoop
    ensures Run(u, ins, n + 1).rate == Pid.RateStep(Run(u, ins, n).rate, x)
  {
    hide FsInputOf, Failsafe.Step, Estimator.Step, RcOf, FeedRaw, Gate, Pid.RateStep, Pid.RateShift,
         Pid.RateDuties, SetpointOf, ImuCtl;
    var (s, st) := (Run(u, ins, n), ins[n].st);
    x := Pid.RateInput(ImuCtl(s.est, st.imu).gyro, SetpointOf(u.cfg, RcOf(s.rc, st), Run(u, ins, n + 1).est));
  }

  /** The shift published after a tick is the one the rate controller feeds back. */
  lemma ShiftRemembered(u: Setup, ins: seq<LoopInput>, n: nat)
    requires n <= |ins| && u.cfg.mode != OpenLoop
    ensures Run(u, ins, n).satShift == Run(u, ins, n).rate.lastShift
  {
    hide FsInputOf, Failsafe.Step, Estimator.Step, RcOf, FeedRaw, Gate, Pid.RateShift,
         Pid.RateDuties, SetpointOf, ImuCtl, Pid.StepState;
  }

  // ---------------------------------------------------------------------------------------------
  // RC loss on a clock that only moves forward
  // ---------------------------------------------------------------------------------------------

  predicate ForwardClock(ins: seq<LoopInput>) {
    forall i, j | 0 <= i < j < |ins| :: ins[i].st.tUs < ins[j].st.tUs
  }

  /** On a forward clock every decoded frame is fresh, and losing RC acts on time: the first tick at
      least 100 ms after the last frame, and no earlier one, latches the timeout and stops the motors,
      unless that tick is an arm-test edge. */
  lemma RcLoss(u: Setup, ins: seq<LoopInput>, i: nat, j: nat)
    requires ForwardClock(ins) && i <= j < |ins|
    requires FramesAt(u, ins, i) != [] && forall k: nat | i < k <= j :: FramesAt(u, ins, k) == []
    ensures History.FreshAt(FsInputs(u, ins), i)
    ensures var (s, t) := (Run(u, ins, j).fs.latch, Run(u, ins, j + 1).fs.latch);
            && (ins[j].st.tUs < ins[i].st.tUs + 100000 ==>
                  Failsafe.RcTimeout in t.reason ==> Failsafe.RcTimeout in s.reason)
            && (ins[j].st.tUs >= ins[i].st.tUs + 100000 && !History.RisingAt(FsInputs(u, ins), j) ==>
                  Failsafe.RcTimeout in t.reason && !t.armed && PwmAt(u, ins, j) == Off)
  {
    hide Run, FramesAt, PwmAt, History.Run, History.RisingAt, FsInputOf, History.FreshAt;
    var xs := FsInputs(u, ins);
    forall k: nat | k < |ins|
      ensures History.FrameAt(xs, k) <==> FramesAt(u, ins, k) != []
      ensures xs[k].rc.tUs == xs[k].nowUs == ins[k].st.tUs
    {
      FrameFlag(u, ins, k);
    }
    assert History.Clocked(xs) && History.LastFrame(xs, i, j);
    History.RcLossTiming(xs, i, j);
    History.RcLossLatency(u.resetReason, xs, i, j);
    SafetyProjects(u, ins, j);
    SafetyProjects(u, ins, j + 1);
    GateNeedsArmed(u, ins, j);
  }

  lemma GateNeedsArmed(u: Setup, ins: seq<LoopInput>, n: nat)
    requires n < |ins|
    ensures !Run(u, ins, n + 1).fs.latch.armed ==> PwmAt(u, ins, n) == Off
  {
    hide FsInputOf, Failsafe.Step, Estimator.Step, Control, RcOf, FeedRaw;
  }

  // ---------------------------------------------------------------------------------------------
  // The loop told from its inputs alone, arm-test requests aside
  // ---------------------------------------------------------------------------------------------

  function Samples(ins: seq<LoopInput>, n: nat): (xs: seq<ImuSample>)
    requires n <= |ins|
    ensures |xs| == n && forall j | 0 <= j < n :: xs[j] == ins[j].st.imu
  {
    seq(n, j requires 0 <= j < n => ins[j].st.imu)
  }

  /** Without arm-test requests nothing arms before calibration is done, so the calibration is that of
      all samples delivered, armed ticks or not. */
  lemma {:induction false} CalibrationFromSamples(u: Setup, ins: seq<LoopInput>, n: nat)
    requires n <= |ins| && forall j | 0 <= j < n :: !ins[j].armTest
    ensures var s := Run(u, ins, n);
            s.est.cal == Estimator.CalRun(Samples(ins, n)) && (s.fs.latch.armed ==> s.est.Calibrated())
  {
    hide Run, Failsafe.Step, Estimator.AttStep, RcOf, Failsafe.Coherent, FeedRaw;
    if n == 0 {
      RunZero(u, ins);
    } else {
      CalibrationFromSamples(u, ins, n - 1);
      RunNext(u, ins, n - 1);
      SafetyProjects(u, ins, n - 1);
      History.RunCoherent(u.resetReason, FsInputs(u, ins), n - 1);
      Failsafe.ArmNeedsCalibration(Run(u, ins, n - 1).fs, FsInputs(u, ins)[n - 1]);
      var xs := Samples(ins, n);
      assert xs[..|xs| - 1] == Samples(ins, n - 1);
    }
  }

  /** The samples before tick j completed a calibration window. */
  ghost predicate CalibratedBy(ins: seq<LoopInput>, j: nat)
    requires j <= |ins|
  {
    exists p: nat :: Estimator.FirstFull(Samples(ins, j), p)
  }

  /** The frames that the bytes of tick j complete in the scan of all bytes so far. */
  ghost function NewFrames(ins: seq<LoopInput>, j: nat): (fs: seq<seq<Byte>>)
    requires j < |ins|
    ensures forall k | 0 <= k < |fs| :: |fs[k]| == 25
  {
    var before := RcParse.Scan(RcParse.Flatten(Chunks(ins, j))).frames;
    var after := RcParse.Scan(RcParse.Flatten(Chunks(ins, j + 1))).frames;
    if |before| <= |after| then after[|before|..] else []
  }

  lemma FramesAreNew(u: Setup, ins: seq<LoopInput>, j: nat)
    requires j < |ins|
    ensures FramesAt(u, ins, j) == NewFrames(ins, j)
  {
    hide RcParse.Scan, Run, FramesAt;
    RcStreamIntact(u, ins, j);
    RcStreamIntact(u, ins, j + 1);
  }

  /** What the state machine is given at tick j, from the delivered bytes and samples. */
  ghost function WireInput(ins: seq<LoopInput>, j: nat): Failsafe.FsInput
    requires j < |ins|
  {
    var (fs, st) := (NewFrames(ins, j), ins[j].st);
    Failsafe.FsInput(RcParse.Delivered(fs, NO_RC).(frameOk := fs != [], tUs := st.tUs), st.imu, VbatOf(st), st.tUs,
                     CalibratedBy(ins, j), ins[j].armTest)
  }

  ghost function WireInputs(ins: seq<LoopInput>): (xs: seq<Failsafe.FsInput>)
    ensures |xs| == |ins| && forall j | 0 <= j < |ins| :: xs[j] == WireInput(ins, j)
  {
    seq(|ins|, j requires 0 <= j < |ins| => WireInput(ins, j))
  }

  lemma WireInputIs(u: Setup, ins: seq<LoopInput>, j: nat)
    requires j < |ins| && forall i | 0 <= i < j :: !ins[i].armTest
    ensures FsInputs(u, ins)[j] == WireInput(ins, j)
  {
    hide Run, NewFrames, Estimator.CalRun, Samples;
    FramesAreNew(u, ins, j);
    CalibrationFromSamples(u, ins, j);
    Estimator.CalibrationLaw(Samples(ins, j));
  }

  /** The bad flags of the ticks that the input history leaves armed. */
  ghost function WireBadFlags(faultBoot: bool, ins: seq<LoopInput>, n: nat): seq<bool>
    requires n <= |ins|
  {
    if n == 0 then []
    else
      var before := WireBadFlags(faultBoot, ins, n - 1);
      if History.ArmedAfter(faultBoot, WireInputs(ins), n) then before + [Defective(ins[n - 1].st.imu)] else before
  }

  lemma {:induction false} WireFlagsAre(u: Setup, ins: seq<LoopInput>, n: nat)
    requires n <= |ins| && forall j | 0 <= j < |ins| :: !ins[j].armTest
    ensures ArmedBadFlags(u, ins, n) == WireBadFlags(FaultBoot(u.resetReason), ins, n)
  {
    hide Run, History.ArmedAfter, WireInputs, FaultBoot;
    if n > 0 {
      WireFlagsAre(u, ins, n - 1);
      ArmedIsWire(u, ins, n);
    }
  }

  lemma ArmedIsWire(u: Setup, ins: seq<LoopInput>, n: nat)
    requires n <= |ins| && forall j | 0 <= j < |ins| :: !ins[j].armTest
    ensures Run(u, ins, n).fs.latch.armed
            <==> History.ArmedAfter(FaultBoot(u.resetReason), WireInputs(ins), n)
  {
    hide Run, History.Run, History.ArmedAfter, WireInputs, FsInputs, FaultBoot;
    SafetyProjects(u, ins, n);
    History.ArmedIsHistory(u.resetReason, FsInputs(u, ins), n);
    InputsAreWire(u, ins);
  }

  /** The end-to-end gate from delivered bytes and samples alone, without arm-test requests: the motors
      are written at tick n exactly when the input history has the craft armed, and of the samples at the
      ticks it left armed fewer than five bad ones trail. */
  lemma MotorsFromInputs(u: Setup, ins: seq<LoopInput>, n: nat)
    requires n < |ins| && forall j | 0 <= j < |ins| :: !ins[j].armTest
    ensures var b := FaultBoot(u.resetReason);
            PwmAt(u, ins, n).Write? <==>
              && History.ArmedAfter(b, WireInputs(ins), n + 1)
              && Estimator.TrailingRun(WireBadFlags(b, ins, n + 1)) < 5
  {
    hide PwmAt, Run, History.ArmedAfter, Estimator.BadFlags, Estimator.TrailingRun, EstCalls, FsInputs, WireInputs,
         WireBadFlags, ArmedBadFlags;
    MotorsOnIff(u, ins, n);
    EstimatorSeesArmedTicks(u, ins, n + 1);
    WireFlagsAre(u, ins, n + 1);
    InputsAreWire(u, ins);
  }

  /** The last of some frames carries the receiver's failsafe bit, the fourth of its flags byte. */
  predicate ReportsFailsafe(fs: seq<seq<Byte>>) {
    fs != [] && |fs[|fs| - 1]| == 25 && ToInt(fs[|fs| - 1][23]) >= 8
  }

  lemma RcFlagIsBit(u: Setup, ins: seq<LoopInput>, n: nat)
    requires n < |ins|
    ensures FsInputs(u, ins)[n].rc.rxFailsafe <==> ReportsFailsafe(FramesAt(u, ins, n))
  {
    hide Run, FeedRaw, RcParse.Accepts, RcParse.Norm, RcParse.Throttle, Sbus.Channel;
    var fs := FramesAt(u, ins, n);
    if fs != [] {
      RcParse.AcceptedFlags(fs[|fs| - 1]);
    }
  }

  /** The faults of a tick in terms of what the plant delivered: the voltage itself, the last five samples,
      the failsafe bit of the last frame completed at this tick. */
  lemma FaultsFromState(u: Setup, ins: seq<LoopInput>, n: nat)
    requires n < |ins|
    ensures var faults := Failsafe.Faults(Run(u, ins, n + 1).fs.seen, FsInputs(u, ins)[n]);
            var (v, fs) := (ins[n].st.vbat, FramesAt(u, ins, n));
            && (Failsafe.VbatCrit in faults <==> v.Fin? && v.v < 3.3)
            && (Failsafe.ImuInvalid in faults <==> n >= 4 && forall j | n - 4 <= j <= n :: Defective(ins[j].st.imu))
            && (Failsafe.RcFlag in faults <==> ReportsFailsafe(fs))
  {
    hide Run, History.Run, History.TimeoutAt, FramesAt, Failsafe.Faults, ReportsFailsafe, RcOf;
    SafetyProjects(u, ins, n + 1);
    History.FaultsAreHistory(u.resetReason, FsInputs(u, ins), n, Failsafe.VbatCrit);
    History.FaultsAreHistory(u.resetReason, FsInputs(u, ins), n, Failsafe.ImuInvalid);
    History.FaultsAreHistory(u.resetReason, FsInputs(u, ins), n, Failsafe.RcFlag);
    RcFlagIsBit(u, ins, n);
  }

  /** The sticks of a tick are those of the last frame it completes. */
  lemma SticksOfTick(u: Setup, ins: seq<LoopInput>, n: nat, channels: seq<int>, flags: int)
    requires n < |ins|
    requires var fs := FramesAt(u, ins, n); fs != [] && fs[|fs| - 1] == Sbus.EncodeFrame(channels, flags)
    ensures var rc := RcOf(Run(u, ins, n).rc, ins[n].st);
            && rc.roll == Fin(RcParse.Norm(Sbus.Field(channels, 0)))
            && rc.pitch == Fin(RcParse.Norm(Sbus.Field(channels, 1)))
            && rc.throttle == Fin(RcParse.Throttle(Sbus.Field(channels, 2)))
            && rc.yaw == Fin(RcParse.Norm(Sbus.Field(channels, 3)))
            && (rc.armedSwitch <==> Sbus.Field(channels, 4) > 992)
  {
    hide Run, FeedRaw, RcParse.Sample, Sbus.EncodeFrame, Sbus.Field, RcParse.Norm, RcParse.Throttle;
    RcParse.SampleOfEncoded(channels, flags, NO_RC.tUs);
  }

  /** A tick that completes no frame has centred sticks, no throttle and the switch off. */
  lemma NoSticks(u: Setup, ins: seq<LoopInput>, n: nat)
    requires n < |ins| && FramesAt(u, ins, n) == []
    ensures RcOf(Run(u, ins, n).rc, ins[n].st)
         == RcSample(Fin(0.0), Fin(0.0), Fin(0.0), Fin(0.0), false, false, false, false, ins[n].st.tUs)
  {
    hide Run, FeedRaw;
  }

  // ---------------------------------------------------------------------------------------------
  // The gyro on its way to the controller and the estimator
  // ---------------------------------------------------------------------------------------------

  /** What is fed on plus the bias is the raw reading; what is no number passes unchanged. */
  predicate BiasOff(raw: Float, fed: Float, bias: real) {
    if raw.Fin? then fed.Fin? && fed.v + bias == raw.v else fed == raw
  }

  predicate GyroCorrected(est: Estimator.EstState, raw: Vec3, fed: Vec3) {
    if est.Calibrated() then
      var b := est.cal.bias;
      BiasOff(raw.x, fed.x, b.x) && BiasOff(raw.y, fed.y, b.y) && BiasOff(raw.z, fed.z, b.z)
    else fed == raw
  }

  /** The rate controller works on the reading with the boot bias removed, once there is one. */
  lemma GyroReachesController(u: Setup, ins: seq<LoopInput>, n: nat)
    requires n < |ins|
    ensures GyroCorrected(Run(u, ins, n).est, ins[n].st.imu.gyro, RateInputs(u, ins, n + 1)[n].gyro)
  {
    hide Run, RcOf, SetpointOf;
  }

  /** The estimator calibrates on raw samples at the ticks that end disarmed and fuses corrected ones,
      one millisecond each, at those that end armed. */
  lemma GyroReachesEstimator(u: Setup, ins: seq<LoopInput>, n: nat)
    requires n < |ins|
    ensures var (raw, armed) := (ins[n].st.imu, Run(u, ins, n + 1).fs.latch.armed);
            match EstCalls(u, ins, n + 1)[n]
            case Calibrate(imu) => !armed && imu == raw
            case Fuse(imu, dt) =>
              armed && dt == 0.001 && imu.accel == raw.accel && imu.valid == raw.valid
              && GyroCorrected(Run(u, ins, n).est, raw.gyro, imu.gyro)
  {
    hide Run;
  }

  function Component(v: RVec, axis: nat): real
    requires axis < 3
  {
    if axis == 0 then v.x else if axis == 1 then v.y else v.z
  }

  function AxisTotal(ws: seq<RVec>, axis: nat): real
    requires axis < 3
  {
    if ws == [] then 0.0 else AxisTotal(ws[..|ws| - 1], axis) + Component(ws[|ws| - 1], axis)
  }

  lemma {:induction false} SumIsTotal(ws: seq<RVec>)
    ensures Sum(ws) == RVec(AxisTotal(ws, 0), AxisTotal(ws, 1), AxisTotal(ws, 2))
  {
    if ws != [] {
      SumIsTotal(ws[..|ws| - 1]);
    }
  }

  lemma MeanIsTwoHundredth(ws: seq<RVec>, axis: nat)
    requires axis < 3
    ensures 200.0 * Component(Estimator.Mean(Sum(ws), 200), axis) == AxisTotal(ws, axis)
  {
    hide AxisTotal;
    SumIsTotal(ws);
  }

  function Reading(v: Vec3, axis: nat): Float
    requires axis < 3
  {
    if axis == 0 then v.x else if axis == 1 then v.y else v.z
  }

  /** Without arm-test requests the controller's gyro is told from the samples alone: raw until 200 still
      samples have been delivered, and from then on each reading less the mean of the first such 200. */
  lemma ControlGyroFromSamples(u: Setup, ins: seq<LoopInput>, n: nat, axis: nat)
    requires n < |ins| && axis < 3 && forall j | 0 <= j < n :: !ins[j].armTest
    ensures var (raw, fed) := (Reading(ins[n].st.imu.gyro, axis), Reading(RateInputs(u, ins, n + 1)[n].gyro, axis));
            && (!CalibratedBy(ins, n) ==> fed == raw)
            && forall p: nat | Estimator.FirstFull(Samples(ins, n), p) ::
                 if raw.Fin? then
                   fed.Fin? && 200.0 * (raw.v - fed.v) == AxisTotal(Estimator.Window(Samples(ins, n)[..p]), axis)
                 else fed == raw
  {
    hide Run, RateInputs, Estimator.CalRun, Estimator.Window, Samples, Sum, Estimator.Mean, AxisTotal;
    GyroReachesController(u, ins, n);
    CalibrationFromSamples(u, ins, n);
    Estimator.CalibrationLaw(Samples(ins, n));
    forall p: nat | Estimator.FirstFull(Samples(ins, n), p)
      ensures 200.0 * Component(Run(u, ins, n).est.cal.bias, axis)
           == AxisTotal(Estimator.Window(Samples(ins, n)[..p]), axis)
    {
      MeanIsTwoHundredth(Estimator.Window(Samples(ins, n)[..p]), axis);
    }
  }

  /** A craft whose reading stays at the mean it was calibrated with shows the controller no rotation. */
  lemma StillCraftReadsZero(u: Setup, ins: seq<LoopInput>, n: nat, axis: nat, p: nat)
    requires n < |ins| && axis < 3 && forall j | 0 <= j < n :: !ins[j].armTest
    requires Estimator.FirstFull(Samples(ins, n), p)
    requires var raw := Reading(ins[n].st.imu.gyro, axis);
             raw.Fin? && 200.0 * raw.v == AxisTotal(Estimator.Window(Samples(ins, n)[..p]), axis)
    ensures Reading(RateInputs(u, ins, n + 1)[n].gyro, axis) == Fin(0.0)
  {
    hide Run, RateInputs, Samples, Estimator.Window, Estimator.FirstFull, AxisTotal;
    ControlGyroFromSamples(u, ins, n, axis);
  }

  /** Tick k meets the arming conditions: 200 still samples have calibrated the gyro, the throttle is
      low, and ten ticks in a row have each completed a frame; from k on every tick completes a frame
      with the switch on. */
  ghost predicate ArmedWindow(ins: seq<LoopInput>, k: nat) {
    9 <= k < |ins| && CalibratedBy(ins, k)
    && ThrottleLow(WireInput(ins, k).rc.throttle)
    && (forall j: nat | k - 9 <= j < |ins| :: NewFrames(ins, j) != [])
    && (forall j: nat | k <= j < |ins| :: WireInput(ins, j).rc.armedSwitch)
  }

  /** Arming in the loop, on a forward clock and without arm-test requests, from the input history
      alone: no state of the loop appears on the right. */
  lemma LoopArming(u: Setup, ins: seq<LoopInput>)
    requires ForwardClock(ins) && forall j | 0 <= j < |ins| :: !ins[j].armTest
    ensures Run(u, ins, |ins|).fs.latch.armed <==>
              && !FaultBoot(u.resetReason)
              && (forall j, r | 0 <= j < |ins| :: !History.FaultAt(WireInputs(ins), j, r))
              && exists k: nat :: ArmedWindow(ins, k)
  {
    hide Run, NewFrames, History.Run, WireInput, History.FaultAt, CalibratedBy, RcParse.Delivered, FsInputs;
    var (xs, n) := (WireInputs(ins), |ins|);
    InputsAreWire(u, ins);
    SafetyProjects(u, ins, n);
    forall j: nat | j < n
      ensures !xs[j].armTest && xs[j].calibrated == CalibratedBy(ins, j)
      ensures History.FreshAt(xs, j) <==> NewFrames(ins, j) != []
      ensures History.FrameAt(xs, j) <==> NewFrames(ins, j) != []
    {
      WireFields(ins, j);
      FreshIsFrame(u, ins, j);
      FramesAreNew(u, ins, j);
    }
    History.ArmingHistory(u.resetReason, xs, n);
    if k: nat :| History.ArmedWindow(xs, n, k) {
      assert ArmedWindow(ins, k) by {
        forall j: nat | k - 9 <= j < n
          ensures NewFrames(ins, j) != []
        {
          assert j <= k ==> History.FreshAt(xs, j);
          assert j >= k ==> History.FrameAt(xs, j);
        }
      }
    }
    if k: nat :| ArmedWindow(ins, k) {
      assert History.TenFresh(xs, k);
      assert History.ArmedWindow(xs, n, k);
    }
  }

  lemma WireFields(ins: seq<LoopInput>, j: nat)
    requires j < |ins|
    ensures WireInput(ins, j).armTest == ins[j].armTest && WireInput(ins, j).calibrated == CalibratedBy(ins, j)
  {
  }

  lemma InputsAreWire(u: Setup, ins: seq<LoopInput>)
    requires forall j | 0 <= j < |ins| :: !ins[j].armTest
    ensures FsInputs(u, ins) == WireInputs(ins)
  {
    hide Run, WireInput;
    var (xs, ys) := (FsInputs(u, ins), WireInputs(ins));
    forall j | 0 <= j < |ins|
      ensures xs[j] == ys[j]
    {
      WireInputIs(u, ins, j);
    }
  }

  lemma FreshIsFrame(u: Setup, ins: seq<LoopInput>, j: nat)
    requires ForwardClock(ins) && j < |ins|
    ensures History.FreshAt(FsInputs(u, ins), j) <==> FramesAt(u, ins, j) != []
    ensures History.FrameAt(FsInputs(u, ins), j) <==> FramesAt(u, ins, j) != []
  {
    hide Run, FramesAt, FsInputOf;
    FrameFlag(u, ins, j);
    forall i: nat | i < j
      ensures FsInputs(u, ins)[i].rc.tUs < FsInputs(u, ins)[j].rc.tUs
    {
      FrameFlag(u, ins, i);
    }
  }
}
