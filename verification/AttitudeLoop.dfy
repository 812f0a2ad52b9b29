/** The attitude loop closed through controller, mixer and airframe. */
module AttitudeLoop {
  import opened Floats
  import opened Ports
  import opened ControlLoop
  import opened Plant
  import Estimator
  import Pid

  /** The craft is not already turning back faster than a tilt d off the stick calls for: six times the
      tilt, at most 5.236 rad/s. */
  predicate NotReturning(d: real, rate: real) {
    (d > 0.0 ==> rate < 6.0 * d && rate < 5.236) && (d < 0.0 ==> rate > 6.0 * d && rate > -5.236)
  }

  /** What the rate controller is asked in attitude mode. */
  function Asked(cfg: Config, rc: RcSample, est: Estimator.EstState, gyro: Vec3): Pid.RateInput {
    Pid.RateInput(gyro, SetpointOf(cfg, rc, est))
  }

  lemma RollError(cfg: Config, rc: RcSample, est: Estimator.EstState, s: Pid.RateState, gyro: Vec3)
    requires cfg.mode == Attitude && rc.roll.Fin? && gyro.x.Fin?
    ensures var (d, u) := (rc.roll.v * 0.5236 - est.att.roll, Pid.RollInput(s, Asked(cfg, rc, est, gyro)));
            && u.sp.Fin? && u.meas.Fin?
            && (d != 0.0 && NotReturning(d, gyro.x.v) ==> Sign(u.sp.v - u.meas.v) == Sign(d))
  {
    Pid.AttitudeLaw(Pid.StickToAttitude(rc), Attitude3(est));
    hide Pid.AttitudeAxis;
  }

  lemma PitchError(cfg: Config, rc: RcSample, est: Estimator.EstState, s: Pid.RateState, gyro: Vec3)
    requires cfg.mode == Attitude && rc.pitch.Fin? && gyro.y.Fin?
    ensures var (d, u) := (rc.pitch.v * 0.5236 - est.att.pitch, Pid.PitchInput(s, Asked(cfg, rc, est, gyro)));
            && u.sp.Fin? && u.meas.Fin?
            && (d != 0.0 && NotReturning(d, -gyro.y.v) ==> Sign(u.sp.v - u.meas.v) == Sign(d))
  {
    Pid.AttitudeLaw(Pid.StickToAttitude(rc), Attitude3(est));
    hide Pid.AttitudeAxis;
  }

  /** A craft off its stick is righted: in attitude mode, in every state a run can reach, a roll tilt d
      between stick and estimate meets a torque of d's sign as long as the craft is not returning faster
      than asked, the rate error outweighs the integral and derivative terms, and roll is the axis commanded
      hardest. */
  lemma RollIsRighted(cfg: Config, rc: RcSample, est: Estimator.EstState, s: Pid.RateState, gyro: Vec3,
                      vbat: Float, om: Quad)
    requires cfg.mode == Attitude && rc.roll.Fin? && gyro.x.Fin?
    requires Pid.IntegralsClamped(s) && vbat.Fin? && vbat.v > 0.0
    requires Steady(om, Pid.RateDuties(s, Asked(cfg, rc, est, gyro)), vbat)
    requires var x := Asked(cfg, rc, est, gyro);
             var a := Answer(s, x);
             Outweighs(Pid.ROLL_GAINS, s.roll, Pid.RollInput(s, x)) && Largest(a.x, a.y, a.z)
    requires var d := rc.roll.v * 0.5236 - est.att.roll; d != 0.0 && NotReturning(d, gyro.x.v)
    ensures Sign(FrdTorque(om).x) == Sign(rc.roll.v * 0.5236 - est.att.roll)
  {
    hide Steady, FrdTorque, Outweighs, Largest, Sign, NotReturning, Asked, Answer, Pid.RateDuties, Pid.RollInput,
         Pid.IntegralsClamped;
    RollError(cfg, rc, est, s, gyro);
    FeedbackSigns(s, Asked(cfg, rc, est, gyro), vbat, om);
  }

  /** The same for pitch, which works nose-down positive while the torque is nose-up positive. */
  lemma PitchIsRighted(cfg: Config, rc: RcSample, est: Estimator.EstState, s: Pid.RateState, gyro: Vec3,
                       vbat: Float, om: Quad)
    requires cfg.mode == Attitude && rc.pitch.Fin? && gyro.y.Fin?
    requires Pid.IntegralsClamped(s) && vbat.Fin? && vbat.v > 0.0
    requires Steady(om, Pid.RateDuties(s, Asked(cfg, rc, est, gyro)), vbat)
    requires var x := Asked(cfg, rc, est, gyro);
             var a := Answer(s, x);
             Outweighs(Pid.PITCH_GAINS, s.pitch, Pid.PitchInput(s, x)) && Largest(a.y, a.x, a.z)
    requires var d := rc.pitch.v * 0.5236 - est.att.pitch; d != 0.0 && NotReturning(d, -gyro.y.v)
    ensures Sign(FrdTorque(om).y) == -Sign(rc.pitch.v * 0.5236 - est.att.pitch)
  {
    hide Steady, FrdTorque, Outweighs, Largest, Sign, NotReturning, Asked, Answer, Pid.RateDuties, Pid.PitchInput,
         Pid.IntegralsClamped;
    PitchError(cfg, rc, est, s, gyro);
    FeedbackSigns(s, Asked(cfg, rc, est, gyro), vbat, om);
  }
}
