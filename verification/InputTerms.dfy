/** What the inputs of the flight core mean, in their own fields and figures. The histories that the
    modules are proved against are told in these terms only, so that none of them leans on the code it
    describes. */
module InputTerms {
  import opened Floats
  import opened Ports

  /** A sample flagged invalid, or with a component that is not a number. */
  predicate Defective(i: ImuSample) {
    || !i.valid
    || !i.gyro.x.Fin? || !i.gyro.y.Fin? || !i.gyro.z.Fin?
    || !i.accel.x.Fin? || !i.accel.y.Fin? || !i.accel.z.Fin?
  }

  predicate GyroReadable(i: ImuSample) {
    i.valid && i.gyro.x.Fin? && i.gyro.y.Fin? && i.gyro.z.Fin?
  }

  /** No faster than 0.349 rad/s. */
  predicate GyroStill(i: ImuSample)
    requires GyroReadable(i)
  {
    i.gyro.x.v * i.gyro.x.v + i.gyro.y.v * i.gyro.y.v + i.gyro.z.v * i.gyro.z.v <= 0.349 * 0.349
  }

  predicate BatteryLow(v: Float) {
    v.Fin? && v.v < 3.3
  }

  /** At most a twentieth of the throttle; a reading that is not a number never is. */
  predicate ThrottleLow(t: Float) {
    t == NegInf || (t.Fin? && t.v <= 0.05)
  }

  /** The three watchdogs and the brown-out. */
  predicate FaultBoot(resetReason: int) {
    resetReason == 5 || resetReason == 6 || resetReason == 7 || resetReason == 9
  }

  /** Microseconds between two stamps of a 64-bit clock that may have turned over once. */
  function Elapsed(now: U64, from: U64): int {
    if from <= now then now - from else now - from + 0x1_0000_0000_0000_0000
  }
}
