/** Complementary attitude estimator: gyro-bias calibration while disarmed, fusion while armed. */
module Estimator {
  import opened Floats
  import opened Ports
  import opened Angles
  import opened Vectors
  import opened InputTerms
  import Failsafe

  const CALIB_SAMPLES: nat := 200
  const CALIB_MAX_GYRO_RPS: real := 0.349
  const EST_DECIM: nat := 2
  const ALPHA: real := 0.998
  /** The square of the 1e-3 threshold on the accelerometer norm. */
  const GRAVITY_SQ_MIN: real := 0.000001

  function Reals(v: Vec3): RVec
    requires v.IsFinite()
  {
    RVec(v.x.v, v.y.v, v.z.v)
  }

  /** `std::atan2`, of which only the range is used. */
  type Atan2 = f: (real, real) -> real | forall y, x :: -PI <= f(y, x) <= PI witness (y, x) => 0.0

  datatype Phase = Idle | Collect | Done

  datatype CalState = CalState(phase: Phase, n: nat, sum: RVec, bias: RVec)

  datatype AttState = AttState(roll: real, pitch: real, yaw: real, invalidCount: nat, imuValid: bool, decim: nat)

  datatype EstState = EstState(cal: CalState, att: AttState) {
    predicate Calibrated() { cal.phase == Done }
  }

  const UNCALIBRATED := CalState(Idle, 0, ORIGIN, ORIGIN)
  const LEVEL := AttState(0.0, 0.0, 0.0, 0, true, 0)
  const FRESH := EstState(UNCALIBRATED, LEVEL)

  predicate Usable(imu: ImuSample) {
    imu.valid && imu.gyro.IsFinite()
  }

  /** Norm at most 0.349 rad/s, stated on the squares. */
  predicate Still(g: RVec) {
    NormSq(g) <= CALIB_MAX_GYRO_RPS * CALIB_MAX_GYRO_RPS
  }

  function Mean(sum: RVec, n: nat): RVec
    requires n > 0
  {
    Times(sum, 1.0 / n as real)
  }

  function CalStep(s: CalState, imu: ImuSample): CalState {
    if s.phase == Done then s
    else if !Usable(imu) then s.(phase := Collect)
    else if !Still(Reals(imu.gyro)) then s.(phase := Collect, n := 0, sum := ORIGIN)
    else
      var sum := Plus(s.sum, Reals(imu.gyro));
      if s.n + 1 >= CALIB_SAMPLES then CalState(Done, s.n + 1, sum, Mean(sum, s.n + 1))
      else s.(phase := Collect, n := s.n + 1, sum := sum)
  }

  /** What a rate integrates to over one fusion period. */
  function Turn(rate: real, dte: real): real {
    rate * dte
  }

  /** Blend of the integrated angle and the accelerometer's. */
  function Blend(angle: real, turn: real, ref: real): real {
    ALPHA * (angle + turn) + (1.0 - ALPHA) * ref
  }

  predicate HasGravity(imu: ImuSample)
    requires imu.accel.IsFinite()
  {
    NormSq(Reals(imu.accel)) > GRAVITY_SQ_MIN
  }

  function RollRef(roll: real, imu: ImuSample, atan2: Atan2): real
    requires imu.accel.IsFinite()
  {
    if HasGravity(imu) then atan2(-imu.accel.y.v, -imu.accel.z.v) else roll
  }

  function PitchRef(pitch: real, imu: ImuSample, atan2: Atan2): real
    requires imu.accel.IsFinite()
  {
    if HasGravity(imu) then atan2(-imu.accel.x.v, -imu.accel.z.v) else pitch
  }

  function AttStep(s: AttState, imu: ImuSample, dt: real, atan2: Atan2): AttState {
    if imu.Bad() || !(dt > 0.0) then
      var c := if s.invalidCount < Failsafe.IMU_INVALID_DEBOUNCE then s.invalidCount + 1 else s.invalidCount;
      s.(invalidCount := c, imuValid := c < Failsafe.IMU_INVALID_DEBOUNCE)
    else if s.decim + 1 < EST_DECIM then
      s.(invalidCount := 0, imuValid := true, decim := s.decim + 1)
    else
      var dte := dt * EST_DECIM as real;
      AttState(Wrap(Blend(s.roll, Turn(imu.gyro.x.v, dte), RollRef(s.roll, imu, atan2))),
               Wrap(Blend(s.pitch, Turn(-imu.gyro.y.v, dte), PitchRef(s.pitch, imu, atan2))),
               Wrap(s.yaw + Turn(imu.gyro.z.v, dte)), 0, true, 0)
  }

  class ComplementaryEstimator {
    const atan2: Atan2
    var phase: Phase
    var n: nat
    var sum: RVec
    var bias: RVec
    var roll: real
    var pitch: real
    var yaw: real
    var invalidCount: nat
    var imuValid: bool
    var decim: nat

    function State(): EstState
      reads this
    {
      EstState(CalState(phase, n, sum, bias), AttState(roll, pitch, yaw, invalidCount, imuValid, decim))
    }

    constructor (atan2: Atan2)
      ensures State() == FRESH && this.atan2 == atan2
    {
      this.atan2 := atan2;
      phase, n, sum, bias := Idle, 0, ORIGIN, ORIGIN;
      roll, pitch, yaw := 0.0, 0.0, 0.0;
      invalidCount, imuValid, decim := 0, true, 0;
    }

    method Reset()
      modifies this
      ensures State() == FRESH
    {
      phase, n, sum, bias := Idle, 0, ORIGIN, ORIGIN;
      roll, pitch, yaw := 0.0, 0.0, 0.0;
      invalidCount, imuValid, decim := 0, true, 0;
    }

    method CalibrateUpdate(imu: ImuSample)
      modifies this
      ensures State() == old(State()).(cal := CalStep(old(State()).cal, imu))
    {
      if phase == Done { return; }
      if phase == Idle { phase := Collect; }
      if !imu.valid || !imu.gyro.IsFinite() { return; }
      var g := Reals(imu.gyro);
      if NormSq(g) > CALIB_MAX_GYRO_RPS * CALIB_MAX_GYRO_RPS {
        n := 0;
        sum := ORIGIN;
        return;
      }
      sum := Plus(sum, g);
      n := n + 1;
      if n >= CALIB_SAMPLES {
        bias := Mean(sum, n);
        phase := Done;
      }
    }

    method Update(imu: ImuSample, dt: real)
      modifies this
      ensures State() == old(State()).(att := AttStep(old(State()).att, imu, dt, atan2))
    {
      hide Wrap, Blend, Turn, RollRef, PitchRef;
      var bad := !imu.valid || !imu.gyro.IsFinite() || !imu.accel.IsFinite() || !(dt > 0.0);
      if bad {
        if invalidCount < Failsafe.IMU_INVALID_DEBOUNCE { invalidCount := invalidCount + 1; }
        imuValid := invalidCount < Failsafe.IMU_INVALID_DEBOUNCE;
        return;
      }
      invalidCount := 0;
      imuValid := true;
      decim := decim + 1;
      if decim < EST_DECIM { return; }
      decim := 0;
      var dte := dt * EST_DECIM as real;
      FuseAngles(imu, dte);
    }

    method FuseAngles(imu: ImuSample, dte: real)
      requires !imu.Bad()
      modifies this`roll, this`pitch, this`yaw
      ensures roll == Wrap(Blend(old(roll), Turn(imu.gyro.x.v, dte), RollRef(old(roll), imu, atan2)))
      ensures pitch == Wrap(Blend(old(pitch), Turn(-imu.gyro.y.v, dte), PitchRef(old(pitch), imu, atan2)))
      ensures yaw == Wrap(old(yaw) + Turn(imu.gyro.z.v, dte))
    {
      hide Wrap, Blend, Turn, NormSq;
      var rollA, pitchA := roll, pitch;
      if NormSq(Reals(imu.accel)) > GRAVITY_SQ_MIN {
        rollA := atan2(-imu.accel.y.v, -imu.accel.z.v);
        pitchA := atan2(-imu.accel.x.v, -imu.accel.z.v);
      }
      roll := Blend(roll, Turn(imu.gyro.x.v, dte), rollA);
      pitch := Blend(pitch, Turn(-imu.gyro.y.v, dte), pitchA);
      yaw := yaw + Turn(imu.gyro.z.v, dte);
      roll := WrapPi(roll);
      pitch := WrapPi(pitch);
      yaw := WrapPi(yaw);
    }
  }

  // ---------------------------------------------------------------------------------------------
  // Calibration over whole runs
  // ---------------------------------------------------------------------------------------------

  function CalRun(hist: seq<ImuSample>): CalState {
    if hist == [] then UNCALIBRATED
    else CalStep(CalRun(hist[..|hist| - 1]), hist[|hist| - 1])
  }

  /** The usable still samples since the last usable sample that moved. */
  function Window(hist: seq<ImuSample>): seq<RVec> {
    if hist == [] then []
    else
      var before, imu := Window(hist[..|hist| - 1]), hist[|hist| - 1];
      if !GyroReadable(imu) then before
      else if !GyroStill(imu) then []
      else before + [RVec(imu.gyro.x.v, imu.gyro.y.v, imu.gyro.z.v)]
  }

  /** p is the first moment at which a full window of samples exists. */
  predicate FirstFull(hist: seq<ImuSample>, p: nat) {
    p <= |hist| && |Window(hist[..p])| == 200
    && forall q | 0 <= q < p :: |Window(hist[..q])| < 200
  }

  predicate NeverFull(hist: seq<ImuSample>) {
    forall q | 0 <= q <= |hist| :: |Window(hist[..q])| < 200
  }

  /** While collecting, the counter and the sum are those of the window. */
  predicate Tracks(s: CalState, hist: seq<ImuSample>) {
    s.phase != Done && s.n == |Window(hist)| < 200 && s.sum == Sum(Window(hist)) && s.bias == ORIGIN
    && (s.phase == Idle <==> hist == [])
  }

  /** The bias is the mean of the first full window, completed at moment p. */
  predicate MeanAt(bias: RVec, hist: seq<ImuSample>, p: nat) {
    FirstFull(hist, p) && bias == Mean(Sum(Window(hist[..p])), 200)
  }

  lemma InTerms(imu: ImuSample)
    ensures Usable(imu) <==> GyroReadable(imu)
    ensures Usable(imu) ==> (Still(Reals(imu.gyro)) <==> GyroStill(imu))
    ensures Usable(imu) ==> Reals(imu.gyro) == RVec(imu.gyro.x.v, imu.gyro.y.v, imu.gyro.z.v)
  {
  }

  lemma TracksStep(hist: seq<ImuSample>)
    requires hist != [] && Tracks(CalRun(hist[..|hist| - 1]), hist[..|hist| - 1])
    ensures var s := CalRun(hist);
            if s.phase == Done then
              |Window(hist)| == 200 && s.bias == Mean(Sum(Window(hist)), 200)
            else Tracks(s, hist)
  {
    hide Usable, Still, Plus, Mean, GyroReadable, GyroStill, Reals;
    InTerms(hist[|hist| - 1]);
    WindowStep(hist);
  }

  lemma {:induction false} CalibrationState(hist: seq<ImuSample>)
    ensures var s := CalRun(hist);
            if s.phase == Done then exists p: nat :: MeanAt(s.bias, hist, p)
            else Tracks(s, hist) && NeverFull(hist)
  {
    hide Window, NeverFull, MeanAt, Mean, Sum, CalStep;
    assert hist[..|hist|] == hist;
    if hist == [] {
      NothingFull();
    } else {
      var prefix := hist[..|hist| - 1];
      CalibrationState(prefix);
      FullStep(hist);
      var s := CalRun(prefix);
      if s.phase == Done {
        DoneStays(hist);
        var p: nat :| MeanAt(s.bias, prefix, p);
        MeanStays(s.bias, hist, p);
      } else {
        TracksStep(hist);
        if CalRun(hist).phase == Done {
          MeanNow(CalRun(hist).bias, hist);
        }
      }
    }
  }

  lemma DoneStays(hist: seq<ImuSample>)
    requires hist != [] && CalRun(hist[..|hist| - 1]).phase == Done
    ensures CalRun(hist) == CalRun(hist[..|hist| - 1])
  {
  }

  lemma MeanStays(bias: RVec, hist: seq<ImuSample>, p: nat)
    requires hist != [] && MeanAt(bias, hist[..|hist| - 1], p)
    ensures MeanAt(bias, hist, p)
  {
    hide Window, Mean, Sum;
    PrefixesAgree(hist);
  }

  lemma MeanNow(bias: RVec, hist: seq<ImuSample>)
    requires FirstFull(hist, |hist|) && bias == Mean(Sum(Window(hist)), 200)
    ensures MeanAt(bias, hist, |hist|)
  {
    assert hist[..|hist|] == hist;
  }

  lemma NothingFull()
    ensures NeverFull([]) && Tracks(UNCALIBRATED, [])
  {
  }

  lemma PrefixesAgree(hist: seq<ImuSample>)
    requires hist != []
    ensures forall q | 0 <= q <= |hist| - 1 :: hist[..|hist| - 1][..q] == hist[..q]
  {
  }

  lemma FullStep(hist: seq<ImuSample>)
    requires hist != []
    ensures NeverFull(hist[..|hist| - 1]) ==> |Window(hist[..|hist| - 1])| < 200
    ensures NeverFull(hist[..|hist| - 1]) && |Window(hist)| < 200 ==> NeverFull(hist)
    ensures NeverFull(hist[..|hist| - 1]) && |Window(hist)| == 200 ==> FirstFull(hist, |hist|)
  {
    hide Window;
    PrefixesAgree(hist);
    assert hist[..|hist|] == hist;
    assert NeverFull(hist[..|hist| - 1]) ==> |Window(hist[..|hist| - 1][..|hist| - 1])| < 200;
  }

  lemma WindowStep(hist: seq<ImuSample>)
    requires hist != []
    ensures var (before, imu) := (Window(hist[..|hist| - 1]), hist[|hist| - 1]);
            Usable(imu) && Still(Reals(imu.gyro)) ==>
              |Window(hist)| == |before| + 1 && Sum(Window(hist)) == Plus(Sum(before), Reals(imu.gyro))
  {
    var (before, imu) := (Window(hist[..|hist| - 1]), hist[|hist| - 1]);
    if Usable(imu) && Still(Reals(imu.gyro)) {
      var w := before + [Reals(imu.gyro)];
      assert w[..|w| - 1] == before;
    }
  }

  /** Calibration completes exactly when 200 usable still samples have been seen without motion in
      between, and its bias is then the mean of the first such 200. */
  lemma CalibrationLaw(hist: seq<ImuSample>)
    ensures CalRun(hist).phase == Done <==> exists p: nat :: FirstFull(hist, p)
    ensures forall p: nat | FirstFull(hist, p) :: CalRun(hist).bias == Mean(Sum(Window(hist[..p])), 200)
  {
    hide Window, CalRun, Sum, Mean;
    CalibrationState(hist);
    if CalRun(hist).phase == Done {
      var p: nat :| MeanAt(CalRun(hist).bias, hist, p);
      assert FirstFull(hist, p);
      forall q: nat | FirstFull(hist, q)
        ensures q == p
      {
      }
    }
  }

  lemma {:induction false} WindowStill(hist: seq<ImuSample>)
    ensures forall k | 0 <= k < |Window(hist)| :: Still(Window(hist)[k])
  {
    if hist != [] {
      WindowStill(hist[..|hist| - 1]);
    }
  }

  /** The bias never exceeds the motion threshold, in any run. */
  lemma BiasBounded(hist: seq<ImuSample>)
    ensures NormSq(CalRun(hist).bias) <= 0.349 * 0.349
  {
    hide Window, CalRun, Sum, Times, NormSq;
    CalibrationState(hist);
    OriginNorm();
    if CalRun(hist).phase == Done {
      var p: nat :| MeanAt(CalRun(hist).bias, hist, p);
      WindowStill(hist[..p]);
      var total := Sum(Window(hist[..p]));
      SumNorm(Window(hist[..p]), 0.349);
      ScaledNorm(total, 1.0 / 200.0);
    }
  }

  // ---------------------------------------------------------------------------------------------
  // Whole runs of the estimator: calibrating and fusing calls in any order
  // ---------------------------------------------------------------------------------------------

  datatype Call = Calibrate(imu: ImuSample) | Fuse(imu: ImuSample, dt: real)

  function Step(s: EstState, c: Call, atan2: Atan2): EstState {
    match c
    case Calibrate(imu) => s.(cal := CalStep(s.cal, imu))
    case Fuse(imu, dt) => s.(att := AttStep(s.att, imu, dt, atan2))
  }

  function Run(calls: seq<Call>, atan2: Atan2): EstState {
    if calls == [] then FRESH
    else Step(Run(calls[..|calls| - 1], atan2), calls[|calls| - 1], atan2)
  }

  /** The estimator starts level, trusting the IMU, and uncalibrated. */
  lemma StartsLevel(atan2: Atan2)
    ensures var s := Run([], atan2);
            && s.att.roll == 0.0 && s.att.pitch == 0.0 && s.att.yaw == 0.0 && s.att.imuValid && !s.Calibrated()
            && s.cal.bias == RVec(0.0, 0.0, 0.0)
  {
  }

  function CalibrateCalls(calls: seq<Call>): seq<ImuSample> {
    if calls == [] then []
    else
      var before, c := CalibrateCalls(calls[..|calls| - 1]), calls[|calls| - 1];
      if c.Calibrate? then before + [c.imu] else before
  }

  /** For each fusing call, whether its sample was bad. */
  function BadFlags(calls: seq<Call>): seq<bool> {
    if calls == [] then []
    else
      var before, c := BadFlags(calls[..|calls| - 1]), calls[|calls| - 1];
      if c.Fuse? then before + [Defective(c.imu) || c.dt <= 0.0] else before
  }

  function TrailingRun(flags: seq<bool>): (k: nat)
    ensures k <= |flags|
  {
    if flags == [] || !flags[|flags| - 1] then 0 else 1 + TrailingRun(flags[..|flags| - 1])
  }

  function Capped(k: nat, top: nat): nat {
    if k < top then k else top
  }

  /** The calibration half of a run sees the calibrating calls only, so its laws carry over. */
  lemma {:induction false} CalibrationSeparate(calls: seq<Call>, atan2: Atan2)
    ensures Run(calls, atan2).cal == CalRun(CalibrateCalls(calls))
  {
    if calls != [] {
      var prefix := calls[..|calls| - 1];
      CalibrationSeparate(prefix, atan2);
      var hist := CalibrateCalls(calls);
      if calls[|calls| - 1].Calibrate? {
        assert hist[..|hist| - 1] == CalibrateCalls(prefix);
      }
    }
  }

  /** The estimator's debounce counts the trailing run of bad samples over the fusing calls only. */
  lemma {:induction false} DebounceIsTrailingRun(calls: seq<Call>, atan2: Atan2)
    ensures var s := Run(calls, atan2).att;
            && s.invalidCount == Capped(TrailingRun(BadFlags(calls)), 5)
            && (s.imuValid <==> s.invalidCount < 5)
  {
    hide Wrap, Blend;
    if calls != [] {
      var prefix := calls[..|calls| - 1];
      DebounceIsTrailingRun(prefix, atan2);
      var flags := BadFlags(calls);
      if calls[|calls| - 1].Fuse? {
        assert flags[..|flags| - 1] == BadFlags(prefix);
      }
    }
  }

  predicate InRange(s: AttState) {
    -PI <= s.roll <= PI && -PI <= s.pitch <= PI && -PI <= s.yaw <= PI && s.decim < EST_DECIM
  }

  lemma {:induction false} AttitudeInRange(calls: seq<Call>, atan2: Atan2)
    ensures InRange(Run(calls, atan2).att)
  {
    hide Blend;
    if calls != [] {
      AttitudeInRange(calls[..|calls| - 1], atan2);
    }
  }

  // ---------------------------------------------------------------------------------------------
  // The filter contracts
  // ---------------------------------------------------------------------------------------------

  datatype Axis = Roll | Pitch

  function Angle(s: AttState, axis: Axis): real {
    if axis == Roll then s.roll else s.pitch
  }

  function Rate(imu: ImuSample, axis: Axis): real
    requires imu.gyro.IsFinite()
  {
    if axis == Roll then imu.gyro.x.v else -imu.gyro.y.v
  }

  function AccelAngle(imu: ImuSample, axis: Axis, atan2: Atan2): real
    requires imu.accel.IsFinite()
  {
    if axis == Roll then atan2(-imu.accel.y.v, -imu.accel.z.v) else atan2(-imu.accel.x.v, -imu.accel.z.v)
  }

  function Fused(s: AttState, xs: seq<ImuSample>, dt: real, atan2: Atan2): AttState {
    if xs == [] then s
    else AttStep(Fused(s, xs[..|xs| - 1], dt, atan2), xs[|xs| - 1], dt, atan2)
  }

  /** Good samples that all report one tilt, with the axis rate within `bound`. */
  predicate Steady(xs: seq<ImuSample>, axis: Axis, ref: real, bound: real, atan2: Atan2) {
    forall k | 0 <= k < |xs| ::
      !Defective(xs[k]) && NormSq(Reals(xs[k].accel)) > 0.000001 && AccelAngle(xs[k], axis, atan2) == ref
      && Abs(Rate(xs[k], axis)) <= bound
  }

  function Power(a: real, k: nat): real {
    if k == 0 then 1.0 else a * Power(a, k - 1)
  }

  /** An error after k fusions at rest. */
  function Decayed(e: real, k: nat): real {
    Power(0.998, k) * e
  }

  lemma DecayStep(e: real, k: nat)
    ensures Decayed(e, 0) == e && Decayed(e, k + 1) == 0.998 * Decayed(e, k)
  {
  }

  lemma BlendError(angle: real, turn: real, ref: real)
    ensures Blend(angle, turn, ref) - ref == 0.998 * (angle - ref + turn)
  {
  }

  /** At rest the error to the accelerometer's angle shrinks by alpha at every fusion, that is at
      every second good sample, on either axis and from any attitude. */
  lemma {:induction false} Converges(s: AttState, xs: seq<ImuSample>, dt: real, axis: Axis, ref: real, atan2: Atan2)
    requires InRange(s) && dt > 0.0 && -PI <= ref <= PI
    requires Steady(xs, axis, ref, 0.0, atan2)
    ensures var t := Fused(s, xs, dt, atan2);
            && InRange(t) && t.decim == (s.decim + |xs|) % 2
            && Angle(t, axis) - ref == Decayed(Angle(s, axis) - ref, (s.decim + |xs|) / 2)
  {
    hide AttStep, Decayed, Steady;
    var e := Angle(s, axis) - ref;
    if xs == [] {
      DecayStep(e, 0);
    } else {
      var prefix, imu := xs[..|xs| - 1], xs[|xs| - 1];
      SteadyPrefix(xs, axis, ref, 0.0, atan2);
      Converges(s, prefix, dt, axis, ref, atan2);
      var t := Fused(s, prefix, dt, atan2);
      RestStep(t, imu, dt, axis, ref, atan2);
      DecayStep(e, (s.decim + |prefix|) / 2);
      Halves(s.decim + |prefix|);
    }
  }

  lemma Halves(n: nat)
    ensures if n % 2 == 1 then (n + 1) % 2 == 0 && (n + 1) / 2 == n / 2 + 1
            else (n + 1) % 2 == 1 && (n + 1) / 2 == n / 2
  {
  }

  lemma SteadyPrefix(xs: seq<ImuSample>, axis: Axis, ref: real, bound: real, atan2: Atan2)
    requires xs != [] && Steady(xs, axis, ref, bound, atan2)
    ensures Steady(xs[..|xs| - 1], axis, ref, bound, atan2) && Steady([xs[|xs| - 1]], axis, ref, bound, atan2)
  {
    hide HasGravity;
  }

  /** One good sample at rest: the first of a pair is only counted, the second fuses. */
  lemma RestStep(t: AttState, imu: ImuSample, dt: real, axis: Axis, ref: real, atan2: Atan2)
    requires InRange(t) && dt > 0.0 && -PI <= ref <= PI
    requires Steady([imu], axis, ref, 0.0, atan2)
    ensures var u := AttStep(t, imu, dt, atan2);
            && InRange(u)
            && if t.decim == 1 then u.decim == 0 && Angle(u, axis) - ref == 0.998 * (Angle(t, axis) - ref)
               else u.decim == 1 && Angle(u, axis) == Angle(t, axis)
  {
    hide Wrap, Blend, HasGravity;
    assert [imu][0] == imu;
    if t.decim == 1 {
      RestFusion(t, imu, dt, axis, ref, atan2);
    }
  }

  lemma RestFusion(t: AttState, imu: ImuSample, dt: real, axis: Axis, ref: real, atan2: Atan2)
    requires InRange(t) && t.decim + 1 == 2 && dt > 0.0 && -PI <= ref <= PI
    requires Steady([imu], axis, ref, 0.0, atan2)
    ensures var u := AttStep(t, imu, dt, atan2);
            InRange(u) && u.decim == 0 && Angle(u, axis) - ref == 0.998 * (Angle(t, axis) - ref)
  {
    hide Blend;
    assert [imu][0] == imu;
    var dte := dt * 2.0;
    assert Rate(imu, axis) == 0.0;
    BlendAtRest(Angle(t, axis), ref);
    assert Turn(Rate(imu, axis), dte) == 0.0;
  }

  lemma BlendAtRest(angle: real, ref: real)
    requires -PI <= angle <= PI && -PI <= ref <= PI
    ensures Wrap(Blend(angle, 0.0, ref)) - ref == 0.998 * (angle - ref)
  {
    assert -PI <= Blend(angle, 0.0, ref) <= PI;
  }

  /** The error k fusions after e under a bounded rate: the initial error fading, the band filling in. */
  function Envelope(e: real, band: real, k: nat): real {
    if k == 0 then e else 0.998 * Envelope(e, band, k - 1) + 0.002 * band
  }

  /** The closed form: alpha^k * e + (1 - alpha^k) * band. */
  lemma {:induction false} EnvelopeClosed(e: real, band: real, k: nat)
    ensures Envelope(e, band, k) == Decayed(e, k) + (band - Decayed(band, k))
  {
    hide Decayed;
    DecayStep(e, 0);
    DecayStep(band, 0);
    if k > 0 {
      EnvelopeClosed(e, band, k - 1);
      DecayStep(e, k - 1);
      DecayStep(band, k - 1);
    }
  }

  lemma {:induction false} EnvelopeBelow(e: real, band: real, k: nat, top: real)
    requires 0.0 <= e <= top && 0.0 <= band <= top
    ensures 0.0 <= Envelope(e, band, k) <= top
  {
    if k > 0 {
      EnvelopeBelow(e, band, k - 1, top);
    }
  }

  /** Where a rate bounded by `rate` lets the error settle. */
  predicate IsBand(band: real, rate: real, dt: real) {
    band == 0.998 * Turn(rate, dt * 2.0) / 0.002
  }

  /** The whole course of the error under a bounded rate: after k fusions it is at most
      alpha^k * |e| + (1 - alpha^k) * band, as long as neither e nor the band around the accelerometer's
      angle crosses the half turn. */
  lemma {:induction false} ErrorEnvelope(s: AttState, xs: seq<ImuSample>, dt: real, axis: Axis, ref: real,
                                         rate: real, band: real, atan2: Atan2)
    requires InRange(s) && dt > 0.0 && rate >= 0.0 && IsBand(band, rate, dt)
    requires Steady(xs, axis, ref, rate, atan2)
    requires Abs(ref) + Max(Abs(Angle(s, axis) - ref), band) <= PI
    ensures var (t, k) := (Fused(s, xs, dt, atan2), (s.decim + |xs|) / 2);
            var e := Abs(Angle(s, axis) - ref);
            && InRange(t) && t.decim == (s.decim + |xs|) % 2
            && Abs(Angle(t, axis) - ref) <= Envelope(e, band, k) == Decayed(e, k) + (band - Decayed(band, k))
  {
    hide AttStep, Decayed, Steady, Envelope;
    var e := Abs(Angle(s, axis) - ref);
    EnvelopeClosed(e, band, (s.decim + |xs|) / 2);
    if xs == [] {
      EnvelopeStep(e, band, 0);
    } else {
      var prefix, imu := xs[..|xs| - 1], xs[|xs| - 1];
      SteadyPrefix(xs, axis, ref, rate, atan2);
      ErrorEnvelope(s, prefix, dt, axis, ref, rate, band, atan2);
      var k := (s.decim + |prefix|) / 2;
      BandNonneg(band, rate, dt);
      EnvelopeBelow(e, band, k, Max(e, band));
      Halves(s.decim + |prefix|);
      BoundedStep(Fused(s, prefix, dt, atan2), imu, dt, axis, ref, rate, band, Envelope(e, band, k), atan2);
      EnvelopeStep(e, band, k);
    }
  }

  lemma EnvelopeStep(e: real, band: real, k: nat)
    ensures Envelope(e, band, 0) == e && Envelope(e, band, k + 1) == 0.998 * Envelope(e, band, k) + 0.002 * band
  {
  }

  lemma BandNonneg(band: real, rate: real, dt: real)
    requires dt > 0.0 && rate >= 0.0 && IsBand(band, rate, dt)
    ensures band >= 0.0
  {
    MulNonneg(rate, dt * 2.0);
    hide Turn;
    assert Turn(rate, dt * 2.0) >= 0.0 by { TurnNonneg(rate, dt * 2.0); }
  }

  lemma TurnNonneg(rate: real, dte: real)
    requires rate >= 0.0 && dte >= 0.0
    ensures Turn(rate, dte) >= 0.0
  {
  }

  /** Once inside the band, always inside. */
  lemma ErrorBand(s: AttState, xs: seq<ImuSample>, dt: real, axis: Axis, ref: real, rate: real, band: real,
                  atan2: Atan2)
    requires InRange(s) && dt > 0.0 && rate >= 0.0 && IsBand(band, rate, dt) && Abs(ref) + band <= PI
    requires Steady(xs, axis, ref, rate, atan2)
    requires Abs(Angle(s, axis) - ref) <= band
    ensures var t := Fused(s, xs, dt, atan2);
            InRange(t) && Abs(Angle(t, axis) - ref) <= band
  {
    hide AttStep, Decayed, Steady, Envelope, IsBand;
    ErrorEnvelope(s, xs, dt, axis, ref, rate, band, atan2);
    EnvelopeBelow(Abs(Angle(s, axis) - ref), band, (s.decim + |xs|) / 2, band);
  }

  /** One good sample under a bounded rate: the first of a pair is only counted, the second fuses. */
  lemma BoundedStep(t: AttState, imu: ImuSample, dt: real, axis: Axis, ref: real, rate: real, band: real,
                    err: real, atan2: Atan2)
    requires InRange(t) && dt > 0.0 && rate >= 0.0 && IsBand(band, rate, dt)
    requires Steady([imu], axis, ref, rate, atan2)
    requires Abs(Angle(t, axis) - ref) <= err && Abs(ref) + Max(err, band) <= PI
    ensures var u := AttStep(t, imu, dt, atan2);
            && InRange(u)
            && if t.decim == 1 then u.decim == 0 && Abs(Angle(u, axis) - ref) <= 0.998 * err + 0.002 * band
               else u.decim == 1 && Angle(u, axis) == Angle(t, axis)
  {
    hide Wrap, Blend, HasGravity, IsBand;
    assert [imu][0] == imu;
    if t.decim == 1 {
      BoundedFusion(t, imu, dt, axis, ref, rate, band, err, atan2);
    }
  }

  lemma BoundedFusion(t: AttState, imu: ImuSample, dt: real, axis: Axis, ref: real, rate: real, band: real,
                      err: real, atan2: Atan2)
    requires InRange(t) && t.decim + 1 == 2 && dt > 0.0 && rate >= 0.0 && IsBand(band, rate, dt)
    requires Steady([imu], axis, ref, rate, atan2)
    requires Abs(Angle(t, axis) - ref) <= err && Abs(ref) + Max(err, band) <= PI
    ensures var u := AttStep(t, imu, dt, atan2);
            InRange(u) && u.decim == 0 && Abs(Angle(u, axis) - ref) <= 0.998 * err + 0.002 * band
  {
    hide Blend, Wrap, Turn;
    assert [imu][0] == imu;
    var dte := dt * 2.0;
    ProductBound(Rate(imu, axis), rate, dte);
    BlendBounded(Angle(t, axis), Turn(Rate(imu, axis), dte), ref, Turn(rate, dte), band, err);
  }

  lemma ProductBound(w: real, rate: real, dte: real)
    requires dte > 0.0 && Abs(w) <= rate
    ensures Abs(Turn(w, dte)) <= Turn(rate, dte)
  {
    MulMonotone(dte, w, rate);
    MulMonotone(dte, -rate, w);
    NegTimes(rate, dte);
  }

  lemma BlendBounded(angle: real, turn: real, ref: real, u: real, band: real, err: real)
    requires Abs(turn) <= u && Abs(angle - ref) <= err && Abs(ref) + Max(err, band) <= PI
    requires band == 0.998 * u / 0.002
    ensures Abs(Wrap(Blend(angle, turn, ref)) - ref) <= 0.998 * err + 0.002 * band
  {
    hide Blend, Wrap;
    BlendError(angle, turn, ref);
    WrapIdentity(Blend(angle, turn, ref));
  }

  // ---------------------------------------------------------------------------------------------
  // Which way the angles turn
  // ---------------------------------------------------------------------------------------------

  /** Good samples that all report one tilt and one rate about an axis, sign included. */
  predicate Turning(xs: seq<ImuSample>, axis: Axis, ref: real, w: real, atan2: Atan2) {
    forall k | 0 <= k < |xs| ::
      !Defective(xs[k]) && NormSq(Reals(xs[k].accel)) > 0.000001 && AccelAngle(xs[k], axis, atan2) == ref
      && Rate(xs[k], axis) == w
  }

  /** Where a constant rate lets the error settle: 0.998 / 0.002 times the turn of one fusion. */
  predicate IsOffset(b: real, w: real, dt: real) {
    b == 499.0 * (w * (2.0 * dt))
  }

  /** The signed law of the filter. Under a constant rate w and a constant accelerometer angle the error
      approaches the offset that w causes, the distance to it shrinking by 0.998 at every fusion; roll turns
      with the gyro's x, pitch against its y. */
  lemma {:induction false} SignedLaw(s: AttState, xs: seq<ImuSample>, dt: real, axis: Axis, ref: real, w: real,
                                     b: real, atan2: Atan2)
    requires InRange(s) && dt > 0.0 && IsOffset(b, w, dt) && Turning(xs, axis, ref, w, atan2)
    requires Abs(ref) + Max(Abs(Angle(s, axis) - ref), Abs(b)) <= PI
    ensures var (t, e) := (Fused(s, xs, dt, atan2), Angle(s, axis) - ref);
            && InRange(t) && t.decim == (s.decim + |xs|) % 2
            && Angle(t, axis) - ref - b == Decayed(e - b, (s.decim + |xs|) / 2)
            && Abs(Angle(t, axis) - ref) <= Max(Abs(e), Abs(b))
  {
    hide AttStep, Decayed, Turning, IsOffset;
    var e := Angle(s, axis) - ref;
    if xs == [] {
      DecayStep(e - b, 0);
    } else {
      var prefix, imu := xs[..|xs| - 1], xs[|xs| - 1];
      TurningPrefix(xs, axis, ref, w, atan2);
      SignedLaw(s, prefix, dt, axis, ref, w, b, atan2);
      Halves(s.decim + |prefix|);
      TurningStep(Fused(s, prefix, dt, atan2), imu, dt, axis, ref, w, b, Max(Abs(e), Abs(b)), atan2);
      DecayStep(e - b, (s.decim + |prefix|) / 2);
    }
  }

  lemma TurningPrefix(xs: seq<ImuSample>, axis: Axis, ref: real, w: real, atan2: Atan2)
    requires xs != [] && Turning(xs, axis, ref, w, atan2)
    ensures Turning(xs[..|xs| - 1], axis, ref, w, atan2) && Turning([xs[|xs| - 1]], axis, ref, w, atan2)
  {
    hide NormSq;
  }

  lemma TurningStep(t: AttState, imu: ImuSample, dt: real, axis: Axis, ref: real, w: real, b: real, top: real,
                    atan2: Atan2)
    requires InRange(t) && dt > 0.0 && IsOffset(b, w, dt) && Turning([imu], axis, ref, w, atan2)
    requires Abs(Angle(t, axis) - ref) <= top && Abs(b) <= top && Abs(ref) + top <= PI
    ensures var u := AttStep(t, imu, dt, atan2);
            && InRange(u) && Abs(Angle(u, axis) - ref) <= top
            && if t.decim == 1 then u.decim == 0 && Angle(u, axis) - ref - b == 0.998 * (Angle(t, axis) - ref - b)
               else u.decim == 1 && Angle(u, axis) == Angle(t, axis)
  {
    hide Wrap, Blend, NormSq, IsOffset;
    assert [imu][0] == imu;
    if t.decim == 1 {
      TurningFusion(t, imu, dt, axis, ref, w, b, top, atan2);
    }
  }

  lemma TurningFusion(t: AttState, imu: ImuSample, dt: real, axis: Axis, ref: real, w: real, b: real, top: real,
                      atan2: Atan2)
    requires InRange(t) && t.decim == 1 && dt > 0.0 && IsOffset(b, w, dt) && Turning([imu], axis, ref, w, atan2)
    requires Abs(Angle(t, axis) - ref) <= top && Abs(b) <= top && Abs(ref) + top <= PI
    ensures var u := AttStep(t, imu, dt, atan2);
            && InRange(u) && u.decim == 0 && Abs(Angle(u, axis) - ref) <= top
            && Angle(u, axis) - ref - b == 0.998 * (Angle(t, axis) - ref - b)
  {
    hide Blend, Wrap, Turn, NormSq;
    assert [imu][0] == imu;
    TurnIs(w, dt);
    BlendTowards(Angle(t, axis), Turn(w, dt * EST_DECIM as real), ref, b, top);
  }

  lemma TurnIs(w: real, dt: real)
    ensures Turn(w, dt * EST_DECIM as real) == w * (2.0 * dt)
  {
  }

  lemma BlendTowards(angle: real, turn: real, ref: real, b: real, top: real)
    requires Abs(angle - ref) <= top && Abs(b) <= top && Abs(ref) + top <= PI && b == 499.0 * turn
    ensures var e := Wrap(Blend(angle, turn, ref)) - ref; e - b == 0.998 * (angle - ref - b) && Abs(e) <= top
  {
    hide Blend, Wrap;
    BlendError(angle, turn, ref);
    WrapIdentity(Blend(angle, turn, ref));
  }

  /** The fusing calls with a good sample, in order; every second of them fuses. */
  function GoodCalls(calls: seq<Call>): (cs: seq<Call>)
    ensures forall k | 0 <= k < |cs| :: cs[k].Fuse? && !Defective(cs[k].imu)
  {
    if calls == [] then []
    else
      var before, c := GoodCalls(calls[..|calls| - 1]), calls[|calls| - 1];
      if IsGood(c) then before + [c] else before
  }

  predicate IsGood(c: Call) {
    c.Fuse? && !Defective(c.imu) && c.dt > 0.0
  }

  /** The rotation about z over the two periods of a fusion. */
  function ZTurn(c: Call): real
    requires c.Fuse? && !Defective(c.imu)
  {
    c.imu.gyro.z.v * (2.0 * c.dt)
  }

  /** The rotation about z seen by the fusions: the rate of every second good sample over two periods. */
  function YawTotal(good: seq<Call>): real
    requires forall k | 0 <= k < |good| :: good[k].Fuse? && !Defective(good[k].imu)
  {
    if good == [] then 0.0
    else
      var c := good[|good| - 1];
      YawTotal(good[..|good| - 1]) + if |good| % 2 == 0 then ZTurn(c) else 0.0
  }

  /** Whole turns. */
  function Turns(k: int): real {
    k as real * TWO_PI
  }

  lemma TurnsAdd(j: int, k: int)
    ensures Turns(j + k) == Turns(j) + Turns(k) && Turns(0) == 0.0
  {
  }

  /** Yaw is the integrated rate: after any calls it differs from the total rotation by whole turns. */
  lemma {:induction false} YawLaw(calls: seq<Call>, atan2: Atan2) returns (k: int)
    ensures var s := Run(calls, atan2).att;
            s.yaw == YawTotal(GoodCalls(calls)) + Turns(k) && s.decim == |GoodCalls(calls)| % 2
  {
    hide AttStep, ZTurn, Turns, GoodCalls, YawTotal, Defective, Run;
    TurnsAdd(0, 0);
    if calls == [] {
      k := 0;
      NoYaw(atan2);
    } else {
      var prefix, c := calls[..|calls| - 1], calls[|calls| - 1];
      k := YawLaw(prefix, atan2);
      AttAfter(calls, atan2);
      GoodSnoc(calls);
      if c.Fuse? {
        var j := YawStep(Run(prefix, atan2).att, c, atan2);
        TurnsAdd(j, k);
        k := k + j;
      }
    }
  }

  lemma NoYaw(atan2: Atan2)
    ensures Run([], atan2).att.yaw == 0.0 && Run([], atan2).att.decim == 0
    ensures GoodCalls([]) == [] && YawTotal([]) == 0.0
  {
  }

  lemma AttAfter(calls: seq<Call>, atan2: Atan2)
    requires calls != []
    ensures var (s, c) := (Run(calls[..|calls| - 1], atan2).att, calls[|calls| - 1]);
            Run(calls, atan2).att == if c.Fuse? then AttStep(s, c.imu, c.dt, atan2) else s
  {
    hide AttStep;
  }

  lemma GoodSnoc(calls: seq<Call>)
    requires calls != []
    ensures var (before, c) := (GoodCalls(calls[..|calls| - 1]), calls[|calls| - 1]);
            var after := GoodCalls(calls);
            if IsGood(c) then
              && |after| == |before| + 1
              && YawTotal(after) == YawTotal(before) + if |after| % 2 == 0 then ZTurn(c) else 0.0
            else after == before
  {
    hide ZTurn;
    var (before, c) := (GoodCalls(calls[..|calls| - 1]), calls[|calls| - 1]);
    if IsGood(c) {
      assert (before + [c])[..|before|] == before;
    }
  }

  /** One fusing call: a bad one leaves yaw and the decimation alone, of the good ones every second turns. */
  lemma YawStep(s: AttState, c: Call, atan2: Atan2) returns (j: int)
    requires c.Fuse? && s.decim < 2
    ensures IsGood(c) ==> !Defective(c.imu)
    ensures var t := AttStep(s, c.imu, c.dt, atan2);
            if !IsGood(c) then t.yaw == s.yaw && t.decim == s.decim && j == 0
            else if s.decim == 0 then t.yaw == s.yaw && t.decim == 1 && j == 0
            else t.yaw == s.yaw + ZTurn(c) + Turns(j) && t.decim == 0
  {
    hide Wrap, Blend, Turn, RollRef, PitchRef, ZTurn;
    j := 0;
    if IsGood(c) && s.decim == 1 {
      YawTurnIs(c);
      j := WrapCongruent(s.yaw + ZTurn(c));
    }
  }

  lemma TurnNegated(w: real, dt: real)
    ensures Turn(-w, dt * EST_DECIM as real) == -(w * (2.0 * dt))
  {
    TurnIs(-w, dt);
    NegTimes(w, 2.0 * dt);
  }

  lemma YawTurnIs(c: Call)
    requires c.Fuse? && !Defective(c.imu)
    ensures Turn(c.imu.gyro.z.v, c.dt * EST_DECIM as real) == ZTurn(c)
  {
    TurnIs(c.imu.gyro.z.v, c.dt);
  }

  lemma FreeBlend(angle: real, turn: real) returns (k: int)
    ensures Wrap(Blend(angle, turn, angle)) == angle + 0.998 * turn + k as real * TWO_PI
  {
    hide Wrap;
    k := WrapCongruent(Blend(angle, turn, angle));
  }

  /** Without gravity to go by, roll and pitch follow the gyro alone, at 0.998 of its rate. */
  lemma FreeFall(s: AttState, imu: ImuSample, dt: real, atan2: Atan2) returns (j: int, k: int)
    requires s.decim == 1 && !Defective(imu) && dt > 0.0 && NormSq(Reals(imu.accel)) <= 0.000001
    ensures var u := AttStep(s, imu, dt, atan2);
            var (x, y) := (imu.gyro.x.v * (2.0 * dt), imu.gyro.y.v * (2.0 * dt));
            && u.roll == s.roll + 0.998 * x + j as real * TWO_PI
            && u.pitch == s.pitch - 0.998 * y + k as real * TWO_PI
  {
    hide Wrap, Turn, NormSq, Blend;
    var dte := dt * EST_DECIM as real;
    TurnIs(imu.gyro.x.v, dt);
    TurnNegated(imu.gyro.y.v, dt);
    j := FreeBlend(s.roll, Turn(imu.gyro.x.v, dte));
    k := FreeBlend(s.pitch, Turn(-imu.gyro.y.v, dte));
    var u := AttStep(s, imu, dt, atan2);
    assert Turn(-imu.gyro.y.v, dte) == -(imu.gyro.y.v * (2.0 * dt));
    assert u.pitch == s.pitch + 0.998 * Turn(-imu.gyro.y.v, dte) + k as real * TWO_PI;
  }
}
