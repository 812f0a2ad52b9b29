/** Plain data shared by the flight modules. */
module Ports {
  import opened Floats

  type U64 = t: int | 0 <= t < 0x1_0000_0000_0000_0000

  datatype Vec3 = Vec3(x: Float, y: Float, z: Float) {
    predicate IsFinite() {
      x.IsFinite() && y.IsFinite() && z.IsFinite()
    }
  }

  datatype ImuSample = ImuSample(gyro: Vec3, accel: Vec3, valid: bool) {
    /** A sample that is flagged invalid or carries any non-finite component. */
    predicate Bad() {
      !valid || !gyro.IsFinite() || !accel.IsFinite()
    }
  }

  datatype RcSample = RcSample(roll: Float, pitch: Float, yaw: Float, throttle: Float,
                               armedSwitch: bool, frameOk: bool, rxFailsafe: bool,
                               frameLost: bool, tUs: U64)

  /** The value-initialised `RcSample rc{}`. */
  const NO_RC := RcSample(ZERO, ZERO, ZERO, ZERO, false, false, false, false, 0)

  type PwmCmd = m: seq<Float> | |m| == 4 witness [ZERO, ZERO, ZERO, ZERO]

  const MOTORS_OFF: PwmCmd := [ZERO, ZERO, ZERO, ZERO]

  datatype RateSp = RateSp(roll: Float, pitch: Float, yaw: Float, throttle: Float)
}
