/** One control tick: sensors, safety, estimation, control, the output gate and the status LED, in
    that order, over the modules of the flight context. */
module ControlLoop {
  import opened Bytes
  import opened Floats
  import opened Ports
  import opened HalSil
  import RcParse
  import Failsafe
  import Estimator
  import Pid
  import Mixer

  datatype Mode = OpenLoop | RateOnly | Attitude

  datatype Config = Config(mode: Mode, olFromRc: bool, olThr: Float, olRoll: Float, olPitch: Float, olYaw: Float)

  datatype LoopState = LoopState(rc: RcParse.ParserState, fs: Failsafe.FsState, est: Estimator.EstState,
                                 rate: Pid.RateState, satShift: real, tick: nat)

  function Boot(resetReason: int): LoopState {
    LoopState(RcParse.CLEARED, Failsafe.Booted(resetReason), Estimator.FRESH, Pid.RATE_AT_REST, 0.0, 0)
  }

  const RAW_CAP: nat := 64

  // ---------------------------------------------------------------------------------------------
  // The tick as a function, stage by stage
  // ---------------------------------------------------------------------------------------------

  function FeedRaw(p: RcParse.ParserState, st: StateRc): (r: (RcParse.ParserState, seq<seq<Byte>>))
    ensures forall k | 0 <= k < |r.1| :: |r.1[k]| == 25 && RcParse.Accepts(r.1[k])
  {
    var raw := RawBytes(st, RAW_CAP);
    if raw == [] then (p, []) else RcParse.FeedStep(p, raw)
  }

  /** The loop's sample: the last frame decoded this tick, with the frame flag meaning just that and
      the stamp taken from the HAL clock. */
  function RcOf(p: RcParse.ParserState, st: StateRc): RcSample {
    var frames := FeedRaw(p, st).1;
    RcParse.Delivered(frames, NO_RC).(frameOk := frames != [], tUs := st.tUs)
  }

  /** A reading that is not finite reaches the failsafe as NaN. */
  function VbatOf(st: StateRc): Float {
    if st.vbat.IsFinite() then st.vbat else NaN
  }

  function FsInputOf(s: LoopState, st: StateRc, armTest: bool): Failsafe.FsInput {
    Failsafe.FsInput(RcOf(s.rc, st), st.imu, VbatOf(st), st.tUs, s.est.Calibrated(), armTest)
  }

  /** Gyro with the boot bias removed, once there is one. */
  function ImuCtl(est: Estimator.EstState, imu: ImuSample): ImuSample {
    if est.Calibrated() then
      var b := est.cal.bias;
      imu.(gyro := Vec3(Sub(imu.gyro.x, Fin(b.x)), Sub(imu.gyro.y, Fin(b.y)), Sub(imu.gyro.z, Fin(b.z))))
    else imu
  }

  /** Armed ticks fuse, disarmed ticks calibrate. */
  function EstCall(s: LoopState, fs: Failsafe.FsState, st: StateRc): Estimator.Call {
    if fs.latch.armed then Estimator.Fuse(ImuCtl(s.est, st.imu), Pid.CONTROL_DT_S) else Estimator.Calibrate(st.imu)
  }

  function Attitude3(est: Estimator.EstState): Vec3 {
    Vec3(Fin(est.att.roll), Fin(est.att.pitch), Fin(est.att.yaw))
  }

  function AttitudeSp(rc: RcSample, est: Estimator.EstState): RateSp {
    var (roll, pitch, yaw) := Pid.AttitudeRates(Pid.StickToAttitude(rc), Attitude3(est));
    RateSp(Fin(roll), Fin(pitch), Fin(yaw), rc.throttle)
  }

  /** The setpoint of the rate loop in the closed-loop modes. */
  function SetpointOf(cfg: Config, rc: RcSample, est: Estimator.EstState): RateSp {
    if cfg.mode == RateOnly then Pid.StickToRate(rc) else AttitudeSp(rc, est)
  }

  /** When the yaw stick commands a yaw rate in the closed-loop modes: in rate mode, and in attitude mode
      only where its command is zero anyway. */
  lemma YawStickCommandsIff(cfg: Config, rc: RcSample, est: Estimator.EstState)
    ensures cfg.mode != OpenLoop ==>
              (SetpointOf(cfg, rc, est).yaw == Pid.StickToRate(rc).yaw
               <==> cfg.mode == RateOnly || OrZero(rc.yaw) == 0.0)
  {
    Pid.CascadeBounded(rc, Attitude3(est));
  }

  datatype Controlled = Controlled(duties: seq<real>, shift: real, rate: Pid.RateState)

  function Control(cfg: Config, rc: RcSample, imuCtl: ImuSample, est: Estimator.EstState, rate: Pid.RateState)
    : (c: Controlled)
    ensures |c.duties| == 4 && forall k | 0 <= k < 4 :: 0.0 <= c.duties[k] <= 1.0
  {
    if cfg.mode == OpenLoop then
      if cfg.olFromRc then
        Controlled(Mixer.Duties(rc.throttle, rc.roll, rc.pitch, rc.yaw),
                   Mixer.ShiftOf(rc.throttle, rc.roll, rc.pitch, rc.yaw), rate)
      else
        Controlled(Mixer.Duties(cfg.olThr, cfg.olRoll, cfg.olPitch, cfg.olYaw),
                   Mixer.ShiftOf(cfg.olThr, cfg.olRoll, cfg.olPitch, cfg.olYaw), rate)
    else
      var x := Pid.RateInput(imuCtl.gyro, SetpointOf(cfg, rc, est));
      Controlled(Pid.RateDuties(rate, x), Pid.RateShift(rate, x), Pid.RateStep(rate, x))
  }

  function LedOf(fs: Failsafe.FsState, est: Estimator.EstState): LedMode {
    if fs.latch.bootLatched then LedError
    else if fs.latch.active then LedFailsafe
    else if fs.latch.armed then LedArmed
    else if !est.Calibrated() then LedCalib
    else LedBoot
  }

  datatype TickResult = TickResult(next: LoopState, pwm: PwmCall, led: LedMode)

  /** One tick on the state delivered by the HAL. */
  function TickStep(cfg: Config, atan2: Estimator.Atan2, armTest: bool, s: LoopState, st: StateRc): TickResult {
    var rc := RcOf(s.rc, st);
    var fs := Failsafe.Step(s.fs, FsInputOf(s, st, armTest));
    var imuCtl := ImuCtl(s.est, st.imu);
    var est := Estimator.Step(s.est, EstCall(s, fs, st), atan2);
    var c := Control(cfg, rc, imuCtl, est, s.rate);
    TickResult(LoopState(FeedRaw(s.rc, st).0, fs, est, c.rate, c.shift, s.tick + 1),
               Gate(Mixer.ToPwm(c.duties), fs.latch.armed, fs.latch.active, est.att.imuValid),
               LedOf(fs, est))
  }

  // ---------------------------------------------------------------------------------------------
  // The tick as the code runs it
  // ---------------------------------------------------------------------------------------------

  class FlightContext {
    const hal: SilHal
    const rc: RcParse.SbusParser
    const est: Estimator.ComplementaryEstimator
    const fs: Failsafe.FailsafeFsm
    const rate: Pid.RateController
    const cfg: Config
    var satShift: real
    var tick: nat

    ghost predicate Valid()
      reads this, rc, rate, rate.rollPid, rate.pitchPid, rate.yawPid
    {
      rc.Valid() && rate.Valid()
    }

    ghost function State(): LoopState
      requires Valid()
      reads this, rc, rc.buf, est, fs, rate, rate.rollPid, rate.pitchPid, rate.yawPid
    {
      LoopState(rc.State(), fs.State(), est.State(), rate.State(), satShift, tick)
    }

    /** The objects of a fresh process, the state machine booted with its reset reason. */
    constructor (hal: SilHal, cfg: Config, atan2: Estimator.Atan2, resetReason: int)
      ensures Valid() && State() == Boot(resetReason)
      ensures this.hal == hal && this.cfg == cfg && est.atan2 == atan2
      ensures fresh(rc) && fresh(rc.buf) && fresh(est) && fresh(fs) && fresh(rate)
      ensures fresh(rate.rollPid) && fresh(rate.pitchPid) && fresh(rate.yawPid)
    {
      this.hal := hal;
      this.cfg := cfg;
      rc := new RcParse.SbusParser();
      est := new Estimator.ComplementaryEstimator(atan2);
      var machine := new Failsafe.FailsafeFsm();
      machine.Boot(resetReason);
      fs := machine;
      rate := new Pid.RateController();
      satShift, tick := 0.0, 0;
    }
  }

  method ReadRc(c: FlightContext) returns (rc: RcSample)
    requires c.Valid()
    modifies c.rc, c.rc.buf
    ensures c.Valid() && c.rc.State() == FeedRaw(old(c.rc.State()), c.hal.state).0
    ensures rc == RcOf(old(c.rc.State()), c.hal.state)
  {
    hide RcParse.FeedStep, RcParse.Delivered;
    var raw := RawBytes(c.hal.state, RAW_CAP);
    var n := |raw|;
    rc := NO_RC;
    var ok := false;
    NothingDelivered();
    if n > 0 {
      assert raw[..n] == raw;
      ok, rc := c.rc.Feed(raw, n, rc);
    }
    rc := rc.(frameOk := ok, tUs := c.hal.state.tUs);
  }

  lemma NothingDelivered()
    ensures RcParse.Delivered([], NO_RC) == NO_RC
  {
  }

  method RunControl(c: FlightContext, rc: RcSample, imuCtl: ImuSample) returns (shift: real, pwm: PwmCmd)
    requires c.Valid()
    modifies c.rate, c.rate.rollPid, c.rate.pitchPid, c.rate.yawPid
    ensures c.Valid()
    ensures var r := Control(c.cfg, rc, imuCtl, c.est.State(), old(c.rate.State()));
            c.rate.State() == r.rate && shift == r.shift && pwm == Mixer.ToPwm(r.duties)
  {
    hide Mixer.Duties, Mixer.ShiftOf, Pid.RateStep, Pid.RateShift, Pid.RateDuties, Pid.AttitudeAxis;
    match c.cfg.mode
    case OpenLoop =>
      if c.cfg.olFromRc {
        shift, pwm := Mixer.Write(rc.throttle, rc.roll, rc.pitch, rc.yaw);
      } else {
        shift, pwm := Mixer.Write(c.cfg.olThr, c.cfg.olRoll, c.cfg.olPitch, c.cfg.olYaw);
      }
    case RateOnly =>
      var sp := Pid.StickToRate(rc);
      shift, pwm := c.rate.Update(imuCtl, sp);
    case Attitude =>
      var est := Vec3(Fin(c.est.roll), Fin(c.est.pitch), Fin(c.est.yaw));
      var attSp := Pid.StickToAttitude(rc);
      var roll, pitch, yaw := Pid.AttitudeUpdate(attSp, est);
      shift, pwm := c.rate.Update(imuCtl, RateSp(Fin(roll), Fin(pitch), Fin(yaw), rc.throttle));
  }

  method Tick(c: FlightContext, armTest: bool)
    requires c.Valid()
    modifies c, c.hal`out, c.hal`pwmCalls, c.rc, c.rc.buf, c.est, c.fs, c.rate
    modifies c.rate.rollPid, c.rate.pitchPid, c.rate.yawPid
    ensures c.Valid()
    ensures var r := TickStep(c.cfg, c.est.atan2, armTest, old(c.State()), c.hal.state);
            && c.State() == r.next
            && c.hal.pwmCalls == old(c.hal.pwmCalls) + [r.pwm]
            && c.hal.out == old(c.hal.out).(mot := MotorsAfter(r.pwm), ledMode := r.led)
  {
    hide RcOf, FeedRaw, Failsafe.Step, Estimator.Step, Control, Gate, MotorsAfter, LedOf, ImuCtl;
    var rc, imuCtl := Sense(c, armTest);
    var shift, pwm := RunControl(c, rc, imuCtl);
    c.satShift := shift;
    c.tick := c.tick + 1;
    Actuate(c, pwm);
  }

  /** Sensors, safety and estimation. */
  method Sense(c: FlightContext, armTest: bool) returns (rc: RcSample, imuCtl: ImuSample)
    requires c.Valid()
    modifies c.rc, c.rc.buf, c.est, c.fs
    ensures c.Valid()
    ensures var (s, st) := (old(c.State()), c.hal.state);
            && rc == RcOf(s.rc, st) && imuCtl == ImuCtl(s.est, st.imu)
            && c.rc.State() == FeedRaw(s.rc, st).0
            && c.fs.State() == Failsafe.Step(s.fs, FsInputOf(s, st, armTest))
            && c.est.State() == Estimator.Step(s.est, EstCall(s, c.fs.State(), st), c.est.atan2)
  {
    hide RcOf, FeedRaw, Failsafe.Step, Estimator.Step, ImuCtl;
    var st := c.hal.state;
    rc := ReadRc(c);
    var vbat := if st.vbat.IsFinite() then st.vbat else NaN;
    c.fs.Update(rc, st.imu, vbat, st.tUs, c.est.State().Calibrated(), armTest);
    imuCtl := ImuCtl(c.est.State(), st.imu);
    RunEstimator(c, st.imu, imuCtl);
  }

  /** The single output gate, then the LED. */
  method Actuate(c: FlightContext, pwm: PwmCmd)
    requires c.Valid()
    modifies c.hal`out, c.hal`pwmCalls
    ensures var (fs, est) := (c.fs.State(), c.est.State());
            var call := Gate(pwm, fs.latch.armed, fs.latch.active, est.att.imuValid);
            && c.hal.pwmCalls == old(c.hal.pwmCalls) + [call]
            && c.hal.out == old(c.hal.out).(mot := MotorsAfter(call), ledMode := LedOf(fs, est))
  {
    hide Gate, MotorsAfter, LedOf;
    var written := c.hal.ApplyOutput(pwm, c.fs.armed, c.fs.active, c.est.imuValid);
    var led := LedOf(c.fs.State(), c.est.State());
    c.hal.LedSet(led);
  }

  method RunEstimator(c: FlightContext, imu: ImuSample, imuCtl: ImuSample)
    requires c.Valid()
    modifies c.est
    ensures c.Valid()
    ensures c.est.State() == Estimator.Step(old(c.est.State()),
                               if c.fs.State().latch.armed then Estimator.Fuse(imuCtl, Pid.CONTROL_DT_S)
                               else Estimator.Calibrate(imu), c.est.atan2)
  {
    hide Estimator.AttStep, Estimator.CalStep;
    if c.fs.armed {
      c.est.Update(imuCtl, Pid.CONTROL_DT_S);
    } else {
      c.est.CalibrateUpdate(imu);
    }
  }

  // ---------------------------------------------------------------------------------------------
  // What each control path mixes
  // ---------------------------------------------------------------------------------------------

  /** Four duties read back through the sign table: collective, roll, pitch and yaw. */
  predicate ReadsBack(d: seq<real>, collective: real, roll: real, pitch: real, yaw: real) {
    |d| == 4
    && (d[0] + d[1] + d[2] + d[3]) / 4.0 == collective
    && (-d[0] - d[1] + d[2] + d[3]) / 4.0 == roll
    && (d[0] - d[1] + d[2] - d[3]) / 4.0 == pitch
    && (-d[0] + d[1] + d[2] - d[3]) / 4.0 == yaw
  }

  predicate Unclipped(roll: Float, pitch: Float, yaw: Float) {
    Mixer.TwoLargest(Mixer.Clamp(roll, -1.0, 1.0), Mixer.Clamp(pitch, -1.0, 1.0), Mixer.Clamp(yaw, -1.0, 1.0)) <= 0.5
  }

  /** Open loop mixes the sticks themselves, or the configured command, as the configuration says, and
      leaves the rate controller alone. */
  lemma OpenLoopSource(cfg: Config, rc: RcSample, imuCtl: ImuSample, est: Estimator.EstState, rate: Pid.RateState)
    requires cfg.mode == OpenLoop
    ensures Control(cfg, rc, imuCtl, est, rate).rate == rate
    ensures var c := Control(cfg, rc, imuCtl, est, rate);
            && (cfg.olFromRc && Unclipped(rc.roll, rc.pitch, rc.yaw) ==>
                  ReadsBack(c.duties, Mixer.Clamp(rc.throttle, 0.0, 1.0) + c.shift, Mixer.Clamp(rc.roll, -1.0, 1.0),
                            Mixer.Clamp(rc.pitch, -1.0, 1.0), Mixer.Clamp(rc.yaw, -1.0, 1.0)))
            && (!cfg.olFromRc && Unclipped(cfg.olRoll, cfg.olPitch, cfg.olYaw) ==>
                  ReadsBack(c.duties, Mixer.Clamp(cfg.olThr, 0.0, 1.0) + c.shift, Mixer.Clamp(cfg.olRoll, -1.0, 1.0),
                            Mixer.Clamp(cfg.olPitch, -1.0, 1.0), Mixer.Clamp(cfg.olYaw, -1.0, 1.0)))
  {
    hide Mixer.Duties, Mixer.ShiftOf, Mixer.Clamp, Mixer.TwoLargest;
    if Unclipped(rc.roll, rc.pitch, rc.yaw) {
      Mixer.CommandsPreserved(rc.throttle, rc.roll, rc.pitch, rc.yaw);
    }
    if Unclipped(cfg.olRoll, cfg.olPitch, cfg.olYaw) {
      Mixer.CommandsPreserved(cfg.olThr, cfg.olRoll, cfg.olPitch, cfg.olYaw);
    }
  }

  /** The closed-loop modes mix the stick's throttle with the answers of the rate controller: to the stick
      rates in rate mode, to the attitude cascade in attitude mode. */
  lemma ClosedLoopSource(cfg: Config, rc: RcSample, imuCtl: ImuSample, est: Estimator.EstState, rate: Pid.RateState)
    requires cfg.mode != OpenLoop
    ensures var x := Pid.RateInput(imuCtl.gyro, SetpointOf(cfg, rc, est));
            var (r, p, y) := (Fin(Pid.RollOut(rate, x)), Fin(Pid.PitchOut(rate, x)), Fin(Pid.YawOut(rate, x)));
            var c := Control(cfg, rc, imuCtl, est, rate);
            && (Unclipped(r, p, y) ==>
                  ReadsBack(c.duties, Mixer.Clamp(rc.throttle, 0.0, 1.0) + c.shift, Mixer.Clamp(r, -1.0, 1.0),
                            Mixer.Clamp(p, -1.0, 1.0), Mixer.Clamp(y, -1.0, 1.0)))
            && c.rate.lastShift == c.shift
    ensures cfg.mode == RateOnly && rc.roll.Fin? && rc.pitch.Fin? && rc.yaw.Fin? ==>
              var sp := SetpointOf(cfg, rc, est);
              && sp.roll == Fin(rc.roll.v * 5.236) && sp.pitch == Fin(rc.pitch.v * 5.236)
              && sp.yaw == Fin(rc.yaw.v * 5.236)
    ensures cfg.mode == Attitude && rc.roll.Fin? && rc.pitch.Fin? ==>
              var sp := SetpointOf(cfg, rc, est);
              && Pid.TowardsSetpoint(Fin(rc.roll.v * 0.5236), Fin(est.att.roll), OrZero(sp.roll))
              && Pid.TowardsSetpoint(Fin(rc.pitch.v * 0.5236), Fin(est.att.pitch), OrZero(sp.pitch))
              && sp.yaw == Fin(0.0)
  {
    hide Mixer.Duties, Mixer.ShiftOf, Mixer.Clamp, Mixer.TwoLargest, Pid.StepOut, Pid.StepState;
    var sp := SetpointOf(cfg, rc, est);
    ThrottleKept(cfg, rc, est);
    var x := Pid.RateInput(imuCtl.gyro, sp);
    var (r, p, y) := (Fin(Pid.RollOut(rate, x)), Fin(Pid.PitchOut(rate, x)), Fin(Pid.YawOut(rate, x)));
    Pid.AttitudeLaw(Pid.StickToAttitude(rc), Attitude3(est));
    Pid.CascadeBounded(rc, Attitude3(est));
    hide Pid.AttitudeAxis;
    if Unclipped(r, p, y) {
      Mixer.CommandsPreserved(sp.throttle, r, p, y);
    }
  }

  lemma ThrottleKept(cfg: Config, rc: RcSample, est: Estimator.EstState)
    ensures Mixer.Clamp(SetpointOf(cfg, rc, est).throttle, 0.0, 1.0) == Mixer.Clamp(rc.throttle, 0.0, 1.0)
  {
    hide Pid.AttitudeAxis;
  }

  /** What the parser is given at a tick: the announced bytes, at most 32, or no call at all. */
  lemma BytesOfTick(p: RcParse.ParserState, st: StateRc)
    ensures st.rcLen == 0 ==> FeedRaw(p, st) == (p, [])
    ensures st.rcLen > 0 ==> FeedRaw(p, st) == RcParse.FeedStep(p, st.rcRaw[..(if st.rcLen < 32 then st.rcLen else 32)])
  {
    hide RcParse.FeedStep;
    assert st.rcRaw[..0] == [];
  }
}
