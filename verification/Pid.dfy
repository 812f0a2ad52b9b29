/** PID unit, three-axis rate controller and attitude cascade. */
module Pid {
  import opened Floats
  import opened Ports
  import Angles
  import Mixer

  const CONTROL_DT_S: real := 0.001
  const MAX_RATE_RAD: real := 5.236
  const MAX_ATT_RAD: real := 0.5236

  datatype Gains = Gains(kp: real, ki: real, kd: real, iLimit: real, outLimit: real, dTau: real) {
    /** What every gain set of the flight parameters satisfies. */
    predicate Sane() {
      ki >= 0.0 && iLimit >= 0.0 && outLimit >= 0.0 && dTau >= 0.0
    }
  }

  function MakeGains(kp: real, ki: real, kd: real, iLimit: real, outLimit: real, dLpfHz: real): Gains {
    Gains(kp, ki, kd, iLimit, outLimit, if dLpfHz > 0.0 then 1.0 / (TWO_PI * dLpfHz) else 0.0)
  }

  datatype PidState = PidState(i: real, dFilt: real, measPrev: real, hasPrev: bool)

  const AT_REST := PidState(0.0, 0.0, 0.0, false)

  datatype PidInput = PidInput(sp: Float, meas: Float, dt: real, satPos: bool, satNeg: bool) {
    predicate Accepted() {
      sp.IsFinite() && meas.IsFinite() && dt > 0.0
    }
  }

  /** Low-pass weight of the derivative filter. */
  function Alpha(g: Gains, dt: real): real
    requires dt > 0.0
  {
    if g.dTau > 0.0 then dt / (g.dTau + dt) else 1.0
  }

  function DFilterStep(g: Gains, s: PidState, meas: real, dt: real): real
    requires dt > 0.0
  {
    var slope := if s.hasPrev then (meas - s.measPrev) / dt else 0.0;
    s.dFilt + Alpha(g, dt) * (slope - s.dFilt)
  }

  /** What one step adds to the integral. */
  function IntegralGain(g: Gains, e: real, dt: real): real {
    g.ki * e * dt
  }

  function IntegralStep(g: Gains, i: real, e: real, dt: real, satPos: bool, satNeg: bool): real {
    if (satPos && e > 0.0) || (satNeg && e < 0.0) then i
    else ClampSym(i + IntegralGain(g, e, dt), g.iLimit)
  }

  function StepState(g: Gains, s: PidState, x: PidInput): PidState {
    if !x.Accepted() then s
    else
      var e := x.sp.v - x.meas.v;
      PidState(IntegralStep(g, s.i, e, x.dt, x.satPos, x.satNeg),
               DFilterStep(g, s, x.meas.v, x.dt), x.meas.v, true)
  }

  /** P, I and D terms of the output. */
  function Terms(g: Gains, e: real, i: real, dFilt: real): real {
    g.kp * e + i + -g.kd * dFilt
  }

  function StepOut(g: Gains, s: PidState, x: PidInput): real {
    if !x.Accepted() then 0.0
    else
      var next := StepState(g, s, x);
      ClampSym(Terms(g, x.sp.v - x.meas.v, next.i, next.dFilt), g.outLimit)
  }

  class PidUnit {
    var gains: Gains
    var i: real
    var dFilt: real
    var measPrev: real
    var hasPrev: bool

    function State(): PidState
      reads this
    {
      PidState(i, dFilt, measPrev, hasPrev)
    }

    constructor (kp: real, ki: real, kd: real, iLimit: real, outLimit: real, dLpfHz: real)
      ensures gains == MakeGains(kp, ki, kd, iLimit, outLimit, dLpfHz) && State() == AT_REST
    {
      gains := MakeGains(kp, ki, kd, iLimit, outLimit, dLpfHz);
      i, dFilt, measPrev, hasPrev := 0.0, 0.0, 0.0, false;
    }

    method Reset()
      modifies this
      ensures State() == AT_REST && gains == old(gains)
    {
      i, dFilt, measPrev, hasPrev := 0.0, 0.0, 0.0, false;
    }

    /** Low-passed slope of the measurement. */
    method FilterDerivative(meas: real, dt: real)
      requires dt > 0.0
      modifies this`dFilt, this`measPrev, this`hasPrev
      ensures dFilt == DFilterStep(gains, old(State()), meas, dt)
      ensures measPrev == meas && hasPrev
    {
      var dmeas := 0.0;
      if hasPrev { dmeas := (meas - measPrev) / dt; }
      measPrev := meas;
      hasPrev := true;
      var alpha := if gains.dTau > 0.0 then dt / (gains.dTau + dt) else 1.0;
      dFilt := dFilt + alpha * (dmeas - dFilt);
    }

    /** Conditional integration: the integral holds while saturated in the direction of the error. */
    method Integrate(e: real, dt: real, satPos: bool, satNeg: bool)
      modifies this`i
      ensures i == IntegralStep(gains, old(i), e, dt, satPos, satNeg)
    {
      var block := (satPos && e > 0.0) || (satNeg && e < 0.0);
      if !block {
        i := i + gains.ki * e * dt;
        if i > gains.iLimit { i := gains.iLimit; }
        if i < -gains.iLimit { i := -gains.iLimit; }
      }
    }

    method Step(sp: Float, meas: Float, dt: real, satPos: bool, satNeg: bool) returns (out: real)
      modifies this
      ensures gains == old(gains)
      ensures State() == StepState(gains, old(State()), PidInput(sp, meas, dt, satPos, satNeg))
      ensures out == StepOut(gains, old(State()), PidInput(sp, meas, dt, satPos, satNeg))
    {
      if !sp.IsFinite() || !meas.IsFinite() || !(dt > 0.0) { return 0.0; }
      var e := sp.v - meas.v;
      FilterDerivative(meas.v, dt);
      Integrate(e, dt, satPos, satNeg);
      out := Terms(gains, e, i, dFilt);
      if out > gains.outLimit { out := gains.outLimit; }
      if out < -gains.outLimit { out := -gains.outLimit; }
    }
  }

  // ---------------------------------------------------------------------------------------------
  // One unit over whole runs
  // ---------------------------------------------------------------------------------------------

  function Run(g: Gains, xs: seq<PidInput>): PidState {
    if xs == [] then AT_REST
    else StepState(g, Run(g, xs[..|xs| - 1]), xs[|xs| - 1])
  }

  function RunOut(g: Gains, xs: seq<PidInput>): real
    requires xs != []
  {
    StepOut(g, Run(g, xs[..|xs| - 1]), xs[|xs| - 1])
  }

  function NegState(s: PidState): PidState {
    PidState(-s.i, -s.dFilt, -s.measPrev, s.hasPrev)
  }

  /** The mirrored input: setpoint and measurement negated, saturation flags exchanged. */
  function Mirror(x: PidInput): PidInput {
    PidInput(Negate(x.sp), Negate(x.meas), x.dt, x.satNeg, x.satPos)
  }

  lemma IntegralMirrors(g: Gains, i: real, e: real, dt: real, satPos: bool, satNeg: bool)
    requires g.iLimit >= 0.0
    ensures IntegralStep(g, -i, -e, dt, satNeg, satPos) == -IntegralStep(g, i, e, dt, satPos, satNeg)
  {
    assert g.ki * -e * dt == -(g.ki * e * dt) by {
      assert g.ki * -e == -(g.ki * e);
      NegTimes(g.ki * e, dt);
    }
  }

  lemma DFilterMirrors(g: Gains, s: PidState, meas: real, dt: real)
    requires dt > 0.0
    ensures DFilterStep(g, NegState(s), -meas, dt) == -DFilterStep(g, s, meas, dt)
  {
    var slope := (meas - s.measPrev) / dt;
    assert (-meas - -s.measPrev) / dt == -slope by {
      assert -meas - -s.measPrev == -(meas - s.measPrev);
      NegQuotient(meas - s.measPrev, dt);
    }
    var y := if s.hasPrev then slope else 0.0;
    assert Alpha(g, dt) * (-y - -s.dFilt) == -(Alpha(g, dt) * (y - s.dFilt)) by {
      NegTimes(y - s.dFilt, Alpha(g, dt));
    }
  }

  lemma MulNegated(a: real, b: real)
    ensures a * -b == -(a * b)
  {
    NegTimes(b, a);
  }

  lemma TermsMirror(g: Gains, e: real, i: real, dFilt: real)
    ensures Terms(g, -e, -i, -dFilt) == -Terms(g, e, i, dFilt)
  {
    MulNegated(g.kp, e);
    MulNegated(-g.kd, dFilt);
  }

  lemma StepMirrors(g: Gains, s: PidState, x: PidInput)
    requires g.iLimit >= 0.0 && g.outLimit >= 0.0
    ensures StepState(g, NegState(s), Mirror(x)) == NegState(StepState(g, s, x))
    ensures StepOut(g, NegState(s), Mirror(x)) == -StepOut(g, s, x)
  {
    if x.Accepted() {
      var e := x.sp.v - x.meas.v;
      IntegralMirrors(g, s.i, e, x.dt, x.satPos, x.satNeg);
      DFilterMirrors(g, s, x.meas.v, x.dt);
      assert Mirror(x).sp.v - Mirror(x).meas.v == -e;
      TermsMirror(g, e, StepState(g, s, x).i, StepState(g, s, x).dFilt);
    }
  }

  /** Odd symmetry over runs: mirroring every input of a run negates its state and its output. */
  lemma {:induction false} RunMirrors(g: Gains, xs: seq<PidInput>, ys: seq<PidInput>)
    requires g.iLimit >= 0.0 && g.outLimit >= 0.0
    requires |xs| == |ys| && forall k | 0 <= k < |xs| :: ys[k] == Mirror(xs[k])
    ensures Run(g, ys) == NegState(Run(g, xs))
    ensures xs != [] ==> RunOut(g, ys) == -RunOut(g, xs)
  {
    hide NegState;
    if xs == [] {
      RestMirrors();
    } else {
      RunMirrors(g, xs[..|xs| - 1], ys[..|ys| - 1]);
      StepMirrors(g, Run(g, xs[..|xs| - 1]), xs[|xs| - 1]);
    }
  }

  lemma RestMirrors()
    ensures NegState(AT_REST) == AT_REST
  {
  }

  /** Derivative on measurement: a setpoint, as long as it is finite, never reaches the D state. */
  lemma {:induction false} SetpointNeverReachesD(g: Gains, xs: seq<PidInput>, ys: seq<PidInput>)
    requires |xs| == |ys|
    requires forall k | 0 <= k < |xs| :: xs[k].sp.IsFinite() && ys[k].sp.IsFinite()
    requires forall k | 0 <= k < |xs| :: xs[k].meas == ys[k].meas && xs[k].dt == ys[k].dt
    ensures var (s, t) := (Run(g, xs), Run(g, ys));
            s.dFilt == t.dFilt && s.measPrev == t.measPrev && s.hasPrev == t.hasPrev
  {
    hide DFilterStep, IntegralStep;
    if xs != [] {
      SetpointNeverReachesD(g, xs[..|xs| - 1], ys[..|ys| - 1]);
      var (x, y) := (xs[|xs| - 1], ys[|ys| - 1]);
      if x.Accepted() {
        FilterIgnoresIntegral(g, Run(g, xs[..|xs| - 1]), Run(g, ys[..|ys| - 1]), x.meas.v, x.dt);
      }
    }
  }

  lemma FilterIgnoresIntegral(g: Gains, s: PidState, t: PidState, meas: real, dt: real)
    requires dt > 0.0 && s.dFilt == t.dFilt && s.measPrev == t.measPrev && s.hasPrev == t.hasPrev
    ensures DFilterStep(g, s, meas, dt) == DFilterStep(g, t, meas, dt)
  {
    assert t == s.(i := t.i);
  }

  /** The steepest slope between successive accepted measurements of a run. */
  function PeakSlope(g: Gains, xs: seq<PidInput>): real {
    if xs == [] then 0.0
    else
      var s, x := Run(g, xs[..|xs| - 1]), xs[|xs| - 1];
      var before := PeakSlope(g, xs[..|xs| - 1]);
      if x.Accepted() && s.hasPrev then Max(before, Abs((x.meas.v - s.measPrev) / x.dt)) else before
  }

  /** `measPrev` is the measurement of the latest accepted input. */
  lemma {:induction false} MeasPrevIsLatest(g: Gains, xs: seq<PidInput>)
    ensures Run(g, xs).hasPrev <==> exists k :: 0 <= k < |xs| && xs[k].Accepted()
    ensures forall k | 0 <= k < |xs| && xs[k].Accepted() && (forall j | k < j < |xs| :: !xs[j].Accepted())
              :: Run(g, xs).measPrev == xs[k].meas.v
  {
    if xs != [] {
      var prefix := xs[..|xs| - 1];
      MeasPrevIsLatest(g, prefix);
      if xs[|xs| - 1].Accepted() {
        assert Run(g, xs).hasPrev;
      } else {
        forall k | 0 <= k < |xs| && xs[k].Accepted()
          ensures 0 <= k < |prefix| && prefix[k].Accepted()
        {
        }
      }
    }
  }

  /** A convex combination of two values in [-b, b] stays there. */
  lemma Convex(a: real, x: real, y: real, b: real)
    requires 0.0 <= a <= 1.0 && -b <= x <= b && -b <= y <= b
    ensures -b <= x + a * (y - x) <= b
  {
    if x <= y {
      MulNonneg(a, y - x);
      MulMonotone(y - x, a, 1.0);
      assert a * (y - x) <= y - x;
    } else {
      MulNonneg(a, x - y);
      MulMonotone(x - y, a, 1.0);
      NegTimes(x - y, a);
    }
  }

  lemma DStepBounded(g: Gains, s: PidState, meas: real, dt: real, peak: real)
    requires dt > 0.0 && g.dTau >= 0.0 && Abs(s.dFilt) <= peak
    requires s.hasPrev ==> Abs((meas - s.measPrev) / dt) <= peak
    ensures Abs(DFilterStep(g, s, meas, dt)) <= peak
  {
    var slope := if s.hasPrev then (meas - s.measPrev) / dt else 0.0;
    AlphaRange(g, dt);
    hide Alpha;
    Convex(Alpha(g, dt), s.dFilt, slope, peak);
  }

  /** The filtered derivative never exceeds the steepest slope it has been shown. */
  lemma {:induction false} DStateBounded(g: Gains, xs: seq<PidInput>)
    requires g.dTau >= 0.0
    ensures Abs(Run(g, xs).dFilt) <= PeakSlope(g, xs)
  {
    hide DFilterStep, IntegralStep;
    if xs != [] {
      DStateBounded(g, xs[..|xs| - 1]);
      var s, x := Run(g, xs[..|xs| - 1]), xs[|xs| - 1];
      if x.Accepted() {
        DStepBounded(g, s, x.meas.v, x.dt, PeakSlope(g, xs));
      }
    }
  }

  lemma AlphaRange(g: Gains, dt: real)
    requires dt > 0.0 && g.dTau >= 0.0
    ensures 0.0 < Alpha(g, dt) <= 1.0
  {
    if g.dTau > 0.0 {
      var (sum, q) := (g.dTau + dt, dt / (g.dTau + dt));
      assert q * sum == dt;
      if q > 1.0 {
        MulPos(q - 1.0, sum);
        Distribute(sum, q, 1.0);
      } else if q <= 0.0 {
        MulNonneg(-q, sum);
        NegTimes(q, sum);
      }
    }
  }

  /** What one conditional integration keeps: the clamp, and no motion into a reported saturation. */
  lemma IntegralLaw(g: Gains, i: real, e: real, dt: real, satPos: bool, satNeg: bool)
    requires g.ki >= 0.0 && dt > 0.0 && Abs(i) <= g.iLimit
    ensures var next := IntegralStep(g, i, e, dt, satPos, satNeg);
            && Abs(next) <= g.iLimit
            && (satPos ==> next <= i)
            && (satNeg ==> next >= i)
  {
    if e >= 0.0 {
      MulNonneg(g.ki, e);
      MulNonneg(g.ki * e, dt);
    } else {
      MulNonneg(g.ki, -e);
      NegTimes(-e, g.ki);
      MulNonneg(g.ki * -e, dt);
      NegTimes(g.ki * e, dt);
    }
  }

  // ---------------------------------------------------------------------------------------------
  // Which way the output goes, and how far
  // ---------------------------------------------------------------------------------------------

  lemma QuotientMonotone(x: real, y: real, d: real)
    requires 0.0 < d && x <= y
    ensures x / d <= y / d
  {
  }

  lemma GainOrder(g: Gains, e: real, f: real, dt: real)
    requires g.ki >= 0.0 && dt > 0.0 && e <= f
    ensures IntegralGain(g, e, dt) <= IntegralGain(g, f, dt)
  {
    MulMonotone(g.ki, e, f);
    MulMonotone(dt, g.ki * e, g.ki * f);
  }

  lemma GainZero(g: Gains, dt: real)
    ensures IntegralGain(g, 0.0, dt) == 0.0
  {
  }

  predicate Blocked(e: real, satPos: bool, satNeg: bool) {
    (satPos && e > 0.0) || (satNeg && e < 0.0)
  }

  lemma IntegralCases(g: Gains, i: real, e: real, dt: real, satPos: bool, satNeg: bool)
    ensures IntegralStep(g, i, e, dt, satPos, satNeg)
         == if Blocked(e, satPos, satNeg) then i else ClampSym(i + IntegralGain(g, e, dt), g.iLimit)
  {
  }

  /** A larger error never integrates to less, whatever is reported saturated. */
  lemma IntegralMonotone(g: Gains, i: real, e: real, f: real, dt: real, satPos: bool, satNeg: bool)
    requires g.ki >= 0.0 && dt > 0.0 && Abs(i) <= g.iLimit && e <= f
    ensures IntegralStep(g, i, e, dt, satPos, satNeg) <= IntegralStep(g, i, f, dt, satPos, satNeg)
  {
    hide IntegralGain, IntegralStep, Blocked;
    IntegralCases(g, i, e, dt, satPos, satNeg);
    IntegralCases(g, i, f, dt, satPos, satNeg);
    GainOrder(g, e, f, dt);
    GainZero(g, dt);
    if e <= 0.0 { GainOrder(g, e, 0.0, dt); }
    if f >= 0.0 { GainOrder(g, 0.0, f, dt); }
    ClampedOrder(i, IntegralGain(g, e, dt), IntegralGain(g, f, dt), e, f, g.iLimit, satPos, satNeg);
  }

  lemma ClampedOrder(i: real, a: real, b: real, e: real, f: real, limit: real, satPos: bool, satNeg: bool)
    requires Abs(i) <= limit && e <= f && a <= b && (e <= 0.0 ==> a <= 0.0) && (f >= 0.0 ==> b >= 0.0)
    ensures (if Blocked(e, satPos, satNeg) then i else ClampSym(i + a, limit))
         <= (if Blocked(f, satPos, satNeg) then i else ClampSym(i + b, limit))
  {
  }

  lemma DFilterMonotone(g: Gains, s: PidState, m: real, n: real, dt: real)
    requires dt > 0.0 && g.dTau >= 0.0 && m <= n
    ensures DFilterStep(g, s, m, dt) <= DFilterStep(g, s, n, dt)
  {
    AlphaRange(g, dt);
    hide Alpha;
    QuotientMonotone(m - s.measPrev, n - s.measPrev, dt);
    var (u, v) := ((m - s.measPrev) / dt, (n - s.measPrev) / dt);
    MulMonotone(Alpha(g, dt), u - s.dFilt, v - s.dFilt);
  }

  lemma TermsMonotone(g: Gains, e: real, f: real, i: real, j: real, c: real, d: real)
    requires g.kp >= 0.0 && g.kd >= 0.0 && e <= f && i <= j && c >= d
    ensures Terms(g, e, i, c) <= Terms(g, f, j, d)
  {
    MulMonotone(g.kp, e, f);
    MulMonotone(g.kd, d, c);
    NegTimes(g.kd, c);
    NegTimes(g.kd, d);
  }

  /** The direction of the control law: from every clamped state and under every report of saturation, a
      larger setpoint never lowers the output and a larger measurement never raises it. */
  lemma OutputMonotone(g: Gains, s: PidState, x: PidInput, y: PidInput)
    requires g.Sane() && g.kp >= 0.0 && g.kd >= 0.0 && Abs(s.i) <= g.iLimit && x.Accepted() && y.Accepted()
    requires x.dt == y.dt && x.satPos == y.satPos && x.satNeg == y.satNeg
    requires x.sp.v <= y.sp.v && x.meas.v >= y.meas.v
    ensures StepOut(g, s, x) <= StepOut(g, s, y)
  {
    hide IntegralStep, DFilterStep, Terms;
    var (e, f) := (x.sp.v - x.meas.v, y.sp.v - y.meas.v);
    IntegralMonotone(g, s.i, e, f, x.dt, x.satPos, x.satNeg);
    DFilterMonotone(g, s, y.meas.v, x.meas.v, x.dt);
    var (u, v) := (StepState(g, s, x), StepState(g, s, y));
    TermsMonotone(g, e, f, u.i, v.i, u.dFilt, v.dFilt);
  }

  /** The area under the error of a run: each accepted error times its period. */
  function ErrorArea(xs: seq<PidInput>): real {
    if xs == [] then 0.0
    else
      var x := xs[|xs| - 1];
      ErrorArea(xs[..|xs| - 1]) + if x.Accepted() then Area(x.sp.v - x.meas.v, x.dt) else 0.0
  }

  function Area(e: real, dt: real): real {
    e * dt
  }

  /** The integral that an area calls for. */
  function Integrated(g: Gains, area: real): real {
    g.ki * area
  }

  /** No saturation reported, and the scaled area within the limit at every moment. */
  predicate Unlimited(g: Gains, xs: seq<PidInput>) {
    (forall k | 0 <= k < |xs| :: !xs[k].satPos && !xs[k].satNeg)
    && forall k | 0 <= k <= |xs| :: Abs(Integrated(g, ErrorArea(xs[..k]))) <= g.iLimit
  }

  /** What the integral amounts to: ki times the area under the error, as long as that stays within the
      limit and nothing is reported saturated. */
  lemma {:induction false} IntegralIsArea(g: Gains, xs: seq<PidInput>)
    requires Unlimited(g, xs)
    ensures Run(g, xs).i == Integrated(g, ErrorArea(xs))
  {
    hide DFilterStep, IntegralStep, ErrorArea, Integrated, IntegralGain, Area;
    NoArea(g);
    if xs != [] {
      var prefix, x := xs[..|xs| - 1], xs[|xs| - 1];
      UnlimitedPrefix(g, xs);
      IntegralIsArea(g, prefix);
      AreaSnoc(g, xs);
      if x.Accepted() {
        IntegralCases(g, Run(g, prefix).i, x.sp.v - x.meas.v, x.dt, false, false);
      }
    }
  }

  lemma NoArea(g: Gains)
    ensures Integrated(g, ErrorArea([])) == 0.0
  {
  }

  lemma AreaSnoc(g: Gains, xs: seq<PidInput>)
    requires xs != [] && Unlimited(g, xs)
    ensures Abs(Integrated(g, ErrorArea(xs))) <= g.iLimit
    ensures var (before, x) := (Integrated(g, ErrorArea(xs[..|xs| - 1])), xs[|xs| - 1]);
            Integrated(g, ErrorArea(xs))
            == before + if x.Accepted() then IntegralGain(g, x.sp.v - x.meas.v, x.dt) else 0.0
  {
    hide Integrated, IntegralGain, Area, ErrorArea;
    LimitAtEnd(g, xs);
    AreaStep(xs);
    var x := xs[|xs| - 1];
    if x.Accepted() {
      AreaGrows(g, ErrorArea(xs[..|xs| - 1]), x.sp.v - x.meas.v, x.dt);
    }
  }

  lemma LimitAtEnd(g: Gains, xs: seq<PidInput>)
    requires Unlimited(g, xs)
    ensures Abs(Integrated(g, ErrorArea(xs))) <= g.iLimit
  {
    hide Integrated, ErrorArea;
    assert xs[..|xs|] == xs;
  }

  lemma AreaStep(xs: seq<PidInput>)
    requires xs != []
    ensures var (before, x) := (ErrorArea(xs[..|xs| - 1]), xs[|xs| - 1]);
            ErrorArea(xs) == if x.Accepted() then before + Area(x.sp.v - x.meas.v, x.dt) else before
  {
    hide Area;
  }

  lemma AreaGrows(g: Gains, area: real, e: real, dt: real)
    ensures Integrated(g, area + Area(e, dt)) == Integrated(g, area) + IntegralGain(g, e, dt)
  {
    Distribute(g.ki, area, e * dt);
  }

  lemma UnlimitedPrefix(g: Gains, xs: seq<PidInput>)
    requires xs != [] && Unlimited(g, xs)
    ensures Unlimited(g, xs[..|xs| - 1])
  {
    hide ErrorArea, Integrated;
    var prefix := xs[..|xs| - 1];
    forall k | 0 <= k <= |prefix|
      ensures Abs(Integrated(g, ErrorArea(prefix[..k]))) <= g.iLimit
    {
      assert prefix[..k] == xs[..k];
    }
  }

  /** What a first-order lag of a steep edge leaves after n steps: (tau / (tau + dt))^n of it. */
  function Lag(v: real, ratio: real, n: nat): real {
    if n == 0 then v else ratio * Lag(v, ratio, n - 1)
  }

  /** Measurement k of a ramp. */
  function RampAt(start: real, slope: real, k: nat, dt: real): real {
    start + slope * (k as real * dt)
  }

  /** The filtered derivative of a ramp: it approaches the slope from zero, the gap shrinking by
      tau / (tau + dt) at every measurement after the first. */
  lemma {:induction false} RampResponse(g: Gains, xs: seq<PidInput>, dt: real, slope: real, start: real)
    requires xs != [] && dt > 0.0 && g.dTau > 0.0
    requires forall k | 0 <= k < |xs| ::
               xs[k].sp.Fin? && xs[k].dt == dt && xs[k].meas == Fin(RampAt(start, slope, k, dt))
    ensures var s := Run(g, xs);
            && s.hasPrev && s.measPrev == RampAt(start, slope, |xs| - 1, dt)
            && slope - s.dFilt == Lag(slope, g.dTau / (g.dTau + dt), |xs| - 1)
  {
    hide IntegralStep, DFilterStep, Lag, RampAt;
    var prefix, x := xs[..|xs| - 1], xs[|xs| - 1];
    if prefix == [] {
      FirstSlope(g, AT_REST, x.meas.v, dt);
      LagStep(slope, g.dTau / (g.dTau + dt), 0);
    } else {
      RampResponse(g, prefix, dt, slope, start);
      RampSlope(start, slope, |xs| - 1, dt);
      NextSlope(g, Run(g, prefix), x.meas.v, dt, slope);
      LagStep(slope, g.dTau / (g.dTau + dt), |xs| - 2);
    }
  }

  lemma LagStep(v: real, ratio: real, n: nat)
    ensures Lag(v, ratio, 0) == v && Lag(v, ratio, n + 1) == ratio * Lag(v, ratio, n)
  {
  }

  lemma RampSlope(start: real, slope: real, k: nat, dt: real)
    requires k >= 1 && dt > 0.0
    ensures (RampAt(start, slope, k, dt) - RampAt(start, slope, k - 1, dt)) / dt == slope
  {
    var n := (k - 1) as real;
    assert k as real * dt == n * dt + dt;
    Distribute(slope, n * dt, dt);
    assert slope * dt / dt == slope;
  }

  lemma FirstSlope(g: Gains, s: PidState, meas: real, dt: real)
    requires dt > 0.0 && !s.hasPrev && s.dFilt == 0.0
    ensures DFilterStep(g, s, meas, dt) == 0.0
  {
    hide Alpha;
  }

  lemma NextSlope(g: Gains, s: PidState, meas: real, dt: real, slope: real)
    requires dt > 0.0 && g.dTau > 0.0 && s.hasPrev && (meas - s.measPrev) / dt == slope
    ensures slope - DFilterStep(g, s, meas, dt) == g.dTau / (g.dTau + dt) * (slope - s.dFilt)
  {
    var gap := slope - s.dFilt;
    AlphaComplement(g.dTau, dt);
    var (a, r) := (dt / (g.dTau + dt), g.dTau / (g.dTau + dt));
    assert DFilterStep(g, s, meas, dt) == s.dFilt + a * gap;
    assert r * gap == gap - a * gap by { Distribute(gap, 1.0, a); }
  }

  lemma AlphaComplement(tau: real, dt: real)
    requires tau > 0.0 && dt > 0.0
    ensures tau / (tau + dt) == 1.0 - dt / (tau + dt)
  {
    SumOfQuotients(tau, dt, tau + dt);
    OneQuotient(tau + dt);
  }

  lemma SumOfQuotients(x: real, y: real, s: real)
    requires s > 0.0
    ensures x / s + y / s == (x + y) / s
  {
  }

  lemma OneQuotient(s: real)
    requires s > 0.0
    ensures s / s == 1.0
  {
  }

  // ---------------------------------------------------------------------------------------------
  // Rate controller: three units fed back from the mixer's shift
  // ---------------------------------------------------------------------------------------------

  const ROLL_GAINS := MakeGains(0.15, 2.40, 0.006, 0.06, 0.40, 100.0)
  const PITCH_GAINS := MakeGains(0.15, 2.40, 0.006, 0.06, 0.40, 100.0)
  const YAW_GAINS := MakeGains(0.16, 2.00, 0.004, 0.06, 0.40, 100.0)
  const I_LIMIT: real := 0.06
  const OUT_LIMIT: real := 0.40

  /** What the flight parameters guarantee of every axis. */
  lemma FlightGains()
    ensures ROLL_GAINS.kp == PITCH_GAINS.kp == 0.15 && ROLL_GAINS.ki == PITCH_GAINS.ki == 2.4
    ensures ROLL_GAINS.kd == PITCH_GAINS.kd == 0.006
    ensures YAW_GAINS.kp == 0.16 && YAW_GAINS.ki == 2.0 && YAW_GAINS.kd == 0.004
    ensures forall g | g in {ROLL_GAINS, PITCH_GAINS, YAW_GAINS} ::
              g.dTau * (TWO_PI * 100.0) == 1.0 && g.iLimit == 0.06 && g.outLimit == 0.4
    ensures forall g | g in {ROLL_GAINS, PITCH_GAINS, YAW_GAINS} ::
              g.Sane() && g.kp > 0.0 && g.kd >= 0.0 && g.iLimit == I_LIMIT && g.outLimit == OUT_LIMIT
  {
  }

  datatype RateState = RateState(roll: PidState, pitch: PidState, yaw: PidState, lastShift: real)

  const RATE_AT_REST := RateState(AT_REST, AT_REST, AT_REST, 0.0)

  datatype RateInput = RateInput(gyro: Vec3, sp: RateSp)

  /** The input one axis sees: the flags report the saturation of the previous tick. */
  function AxisInput(sp: Float, meas: Float, lastShift: real): PidInput {
    PidInput(sp, meas, CONTROL_DT_S, lastShift < 0.0, lastShift > 0.0)
  }

  function RollInput(s: RateState, x: RateInput): PidInput {
    AxisInput(x.sp.roll, x.gyro.x, s.lastShift)
  }

  /** The gyro reads nose-up positive, the controller works nose-down positive. */
  function PitchInput(s: RateState, x: RateInput): PidInput {
    AxisInput(x.sp.pitch, Negate(x.gyro.y), s.lastShift)
  }

  function YawInput(s: RateState, x: RateInput): PidInput {
    AxisInput(x.sp.yaw, x.gyro.z, s.lastShift)
  }

  function RollOut(s: RateState, x: RateInput): real { StepOut(ROLL_GAINS, s.roll, RollInput(s, x)) }

  function PitchOut(s: RateState, x: RateInput): real { StepOut(PITCH_GAINS, s.pitch, PitchInput(s, x)) }

  function YawOut(s: RateState, x: RateInput): real { StepOut(YAW_GAINS, s.yaw, YawInput(s, x)) }

  function RateShift(s: RateState, x: RateInput): real {
    Mixer.ShiftOf(x.sp.throttle, Fin(RollOut(s, x)), Fin(PitchOut(s, x)), Fin(YawOut(s, x)))
  }

  function RateDuties(s: RateState, x: RateInput): (d: seq<real>)
    ensures |d| == 4 && forall k | 0 <= k < 4 :: 0.0 <= d[k] <= 1.0
  {
    Mixer.Duties(x.sp.throttle, Fin(RollOut(s, x)), Fin(PitchOut(s, x)), Fin(YawOut(s, x)))
  }

  function RateStep(s: RateState, x: RateInput): RateState {
    RateState(StepState(ROLL_GAINS, s.roll, RollInput(s, x)),
              StepState(PITCH_GAINS, s.pitch, PitchInput(s, x)),
              StepState(YAW_GAINS, s.yaw, YawInput(s, x)),
              RateShift(s, x))
  }

  class RateController {
    const rollPid: PidUnit
    const pitchPid: PidUnit
    const yawPid: PidUnit
    var lastShift: real

    ghost predicate Valid()
      reads this, rollPid, pitchPid, yawPid
    {
      && rollPid != pitchPid && rollPid != yawPid && pitchPid != yawPid
      && rollPid.gains == ROLL_GAINS && pitchPid.gains == PITCH_GAINS && yawPid.gains == YAW_GAINS
    }

    function State(): RateState
      reads this, rollPid, pitchPid, yawPid
    {
      RateState(rollPid.State(), pitchPid.State(), yawPid.State(), lastShift)
    }

    constructor ()
      ensures Valid() && fresh(rollPid) && fresh(pitchPid) && fresh(yawPid)
      ensures State() == RATE_AT_REST
    {
      rollPid := new PidUnit(0.15, 2.40, 0.006, 0.06, 0.40, 100.0);
      pitchPid := new PidUnit(0.15, 2.40, 0.006, 0.06, 0.40, 100.0);
      yawPid := new PidUnit(0.16, 2.00, 0.004, 0.06, 0.40, 100.0);
      lastShift := 0.0;
    }

    method Update(imu: ImuSample, sp: RateSp) returns (shift: real, out: PwmCmd)
      requires Valid()
      modifies this, rollPid, pitchPid, yawPid
      ensures Valid()
      ensures State() == RateStep(old(State()), RateInput(imu.gyro, sp))
      ensures shift == RateShift(old(State()), RateInput(imu.gyro, sp))
      ensures out == Mixer.ToPwm(RateDuties(old(State()), RateInput(imu.gyro, sp)))
    {
      var satPos, satNeg := lastShift < 0.0, lastShift > 0.0;
      var measPitch := Negate(imu.gyro.y);
      var dr := rollPid.Step(sp.roll, imu.gyro.x, CONTROL_DT_S, satPos, satNeg);
      var dp := pitchPid.Step(sp.pitch, measPitch, CONTROL_DT_S, satPos, satNeg);
      var dy := yawPid.Step(sp.yaw, imu.gyro.z, CONTROL_DT_S, satPos, satNeg);
      shift, out := Mixer.Write(sp.throttle, Fin(dr), Fin(dp), Fin(dy));
      lastShift := shift;
    }
  }

  function RateRun(xs: seq<RateInput>): RateState {
    if xs == [] then RATE_AT_REST
    else RateStep(RateRun(xs[..|xs| - 1]), xs[|xs| - 1])
  }

  predicate IntegralsClamped(s: RateState) {
    Abs(s.roll.i) <= I_LIMIT && Abs(s.pitch.i) <= I_LIMIT && Abs(s.yaw.i) <= I_LIMIT
  }

  /** No axis integral is larger in t than in s. */
  predicate NoneRises(s: RateState, t: RateState) {
    t.roll.i <= s.roll.i && t.pitch.i <= s.pitch.i && t.yaw.i <= s.yaw.i
  }

  lemma AxisLaw(g: Gains, s: PidState, x: PidInput)
    requires g.Sane() && Abs(s.i) <= g.iLimit
    ensures var next := StepState(g, s, x);
            && Abs(next.i) <= g.iLimit
            && (x.satPos ==> next.i <= s.i)
            && (x.satNeg ==> next.i >= s.i)
    ensures Abs(StepOut(g, s, x)) <= g.outLimit
  {
    if x.Accepted() {
      IntegralLaw(g, s.i, x.sp.v - x.meas.v, x.dt, x.satPos, x.satNeg);
    }
  }

  /** Anti-windup, one tick: after a negative shift no integral rises, after a positive one none
      falls, and clamps hold throughout. */
  lemma RateStepLaw(s: RateState, x: RateInput)
    requires IntegralsClamped(s)
    ensures var next := RateStep(s, x);
            && IntegralsClamped(next)
            && (s.lastShift < 0.0 ==> NoneRises(s, next))
            && (s.lastShift > 0.0 ==> NoneRises(next, s))
    ensures Abs(RollOut(s, x)) <= OUT_LIMIT && Abs(PitchOut(s, x)) <= OUT_LIMIT && Abs(YawOut(s, x)) <= OUT_LIMIT
  {
    AxisLaw(ROLL_GAINS, s.roll, RollInput(s, x));
    AxisLaw(PITCH_GAINS, s.pitch, PitchInput(s, x));
    AxisLaw(YAW_GAINS, s.yaw, YawInput(s, x));
  }

  lemma {:induction false} RunClamped(xs: seq<RateInput>)
    ensures IntegralsClamped(RateRun(xs))
  {
    if xs != [] {
      RunClamped(xs[..|xs| - 1]);
      RateStepLaw(RateRun(xs[..|xs| - 1]), xs[|xs| - 1]);
    }
  }

  /** Anti-windup over whole runs, on every tick of every run from rest. */
  lemma AntiWindup(xs: seq<RateInput>, k: nat)
    requires 0 < k < |xs|
    ensures var (s, next) := (RateRun(xs[..k]), RateRun(xs[..k + 1]));
            var shift := RateShift(RateRun(xs[..k - 1]), xs[k - 1]);
            && IntegralsClamped(next)
            && (shift < 0.0 ==> NoneRises(s, next))
            && (shift > 0.0 ==> NoneRises(next, s))
            && Abs(RollOut(s, xs[k])) <= OUT_LIMIT && Abs(PitchOut(s, xs[k])) <= OUT_LIMIT
            && Abs(YawOut(s, xs[k])) <= OUT_LIMIT
  {
    hide RateStep, RateShift, RollOut, PitchOut, YawOut, IntegralsClamped, NoneRises, RateRun;
    RunClamped(xs[..k]);
    RunStep(xs, k);
    RunStep(xs, k - 1);
    ShiftKept(RateRun(xs[..k - 1]), xs[k - 1]);
    RateStepLaw(RateRun(xs[..k]), xs[k]);
  }

  lemma RunStep(xs: seq<RateInput>, k: nat)
    requires k < |xs|
    ensures RateRun(xs[..k + 1]) == RateStep(RateRun(xs[..k]), xs[k])
  {
    hide RateStep;
    assert xs[..k + 1][..k] == xs[..k];
  }

  lemma ShiftKept(s: RateState, x: RateInput)
    ensures RateStep(s, x).lastShift == RateShift(s, x)
  {
    hide StepState, RateShift;
  }

  lemma FirstStep(g: Gains, sp: real, meas: real)
    requires Abs(IntegralGain(g, sp - meas, 0.001)) <= g.iLimit
    requires Abs(Terms(g, sp - meas, IntegralGain(g, sp - meas, 0.001), 0.0)) <= g.outLimit
    ensures StepOut(g, AT_REST, AxisInput(Fin(sp), Fin(meas), 0.0))
         == Terms(g, sp - meas, IntegralGain(g, sp - meas, 0.001), 0.0)
  {
    FirstSlope(g, AT_REST, meas, CONTROL_DT_S);
    IntegralCases(g, 0.0, sp - meas, CONTROL_DT_S, false, false);
    hide DFilterStep, IntegralStep, Terms, IntegralGain;
  }

  /** The first response of the three axes to moderate errors, figures included. Pitch works nose-down
      positive, against the gyro. */
  lemma FirstResponse(x: RateInput)
    requires x.gyro.IsFinite() && x.sp.roll.Fin? && x.sp.pitch.Fin? && x.sp.yaw.Fin?
    requires Abs(x.sp.roll.v - x.gyro.x.v) <= 2.0 && Abs(x.sp.pitch.v + x.gyro.y.v) <= 2.0
    requires Abs(x.sp.yaw.v - x.gyro.z.v) <= 2.0
    ensures RollOut(RATE_AT_REST, x) == 0.1524 * (x.sp.roll.v - x.gyro.x.v)
    ensures PitchOut(RATE_AT_REST, x) == 0.1524 * (x.sp.pitch.v + x.gyro.y.v)
    ensures YawOut(RATE_AT_REST, x) == 0.162 * (x.sp.yaw.v - x.gyro.z.v)
  {
    hide StepOut, MakeGains;
    FlightGains();
    FirstStep(ROLL_GAINS, x.sp.roll.v, x.gyro.x.v);
    FirstStep(PITCH_GAINS, x.sp.pitch.v, -x.gyro.y.v);
    FirstStep(YAW_GAINS, x.sp.yaw.v, x.gyro.z.v);
  }

  // ---------------------------------------------------------------------------------------------
  // Attitude cascade and stick maps
  // ---------------------------------------------------------------------------------------------

  const ATT_KP_ROLL_PITCH: real := 6.0
  const ATT_KP_YAW: real := 0.0
  const ATT_RATE_LIMIT: real := 5.236

  /** Rate setpoint of one axis; the yaw error goes the short way round. */
  function AttitudeAxis(sp: Float, est: Float, kp: real, yaw: bool): real {
    var e := OrZero(Sub(sp, est));
    ClampSym(kp * (if yaw then Angles.Wrap(e) else e), ATT_RATE_LIMIT)
  }

  function AttitudeRates(sp: Vec3, est: Vec3): (real, real, real) {
    (AttitudeAxis(sp.x, est.x, ATT_KP_ROLL_PITCH, false),
     AttitudeAxis(sp.y, est.y, ATT_KP_ROLL_PITCH, false),
     AttitudeAxis(sp.z, est.z, ATT_KP_YAW, true))
  }

  method AttitudeUpdate(sp: Vec3, est: Vec3) returns (roll: real, pitch: real, yaw: real)
    ensures (roll, pitch, yaw) == AttitudeRates(sp, est)
  {
    var sps, ests := [sp.x, sp.y, sp.z], [est.x, est.y, est.z];
    var kps := [ATT_KP_ROLL_PITCH, ATT_KP_ROLL_PITCH, ATT_KP_YAW];
    var out := [0.0, 0.0, 0.0];
    for i := 0 to 3
      invariant |out| == 3
      invariant forall j | 0 <= j < i :: out[j] == AttitudeAxis(sps[j], ests[j], kps[j], j == 2)
    {
      var e := OrZero(Sub(sps[i], ests[i]));
      if i == 2 {
        e := Angles.WrapPi(e);
      }
      var r := kps[i] * e;
      if r > ATT_RATE_LIMIT { r := ATT_RATE_LIMIT; }
      if r < -ATT_RATE_LIMIT { r := -ATT_RATE_LIMIT; }
      out := out[i := r];
    }
    return out[0], out[1], out[2];
  }

  function StickToRate(rc: RcSample): RateSp {
    RateSp(Fin(OrZero(rc.roll) * MAX_RATE_RAD), Fin(OrZero(rc.pitch) * MAX_RATE_RAD),
           Fin(OrZero(rc.yaw) * MAX_RATE_RAD), Fin(OrZero(rc.throttle)))
  }

  function StickToAttitude(rc: RcSample): Vec3 {
    Vec3(Fin(OrZero(rc.roll) * MAX_ATT_RAD), Fin(OrZero(rc.pitch) * MAX_ATT_RAD), ZERO)
  }

  /** Whatever the attitude estimate and the sticks (NaN and infinities included), the setpoints the
      cascade hands to the rate loop are bounded, and its yaw setpoint is zero: in attitude mode the
      yaw stick has no effect. */
  lemma CascadeBounded(rc: RcSample, est: Vec3)
    ensures var (roll, pitch, yaw) := AttitudeRates(StickToAttitude(rc), est);
            Abs(roll) <= ATT_RATE_LIMIT && Abs(pitch) <= ATT_RATE_LIMIT && yaw == 0.0
  {
  }

  /** The cascade pulls towards the setpoint: with finite setpoint and estimate each of the roll and pitch
      rates is six times the difference, cut at 5.236 rad/s, so it has the difference's sign and is zero
      exactly where the two agree. A difference that is no number commands nothing. */
  lemma AttitudeLaw(sp: Vec3, est: Vec3)
    ensures var (roll, pitch, yaw) := AttitudeRates(sp, est);
            TowardsSetpoint(sp.x, est.x, roll) && TowardsSetpoint(sp.y, est.y, pitch)
  {
  }

  predicate TowardsSetpoint(sp: Float, est: Float, rate: real) {
    if sp.Fin? && est.Fin? then
      var d := sp.v - est.v;
      && (d > 0.0 <==> rate > 0.0) && (d < 0.0 <==> rate < 0.0)
      && (Abs(6.0 * d) <= 5.236 ==> rate == 6.0 * d) && (Abs(6.0 * d) > 5.236 ==> Abs(rate) == 5.236)
    else rate == 0.0
  }

  /** The sticks: each axis its own, 300 degrees per second or 30 degrees at full deflection, signs kept. */
  lemma StickLaw(rc: RcSample)
    requires rc.roll.Fin? && rc.pitch.Fin? && rc.yaw.Fin? && rc.throttle.Fin?
    ensures StickToRate(rc)
         == RateSp(Fin(rc.roll.v * 5.236), Fin(rc.pitch.v * 5.236), Fin(rc.yaw.v * 5.236), rc.throttle)
    ensures StickToAttitude(rc) == Vec3(Fin(rc.roll.v * 0.5236), Fin(rc.pitch.v * 0.5236), Fin(0.0))
  {
  }

  /** A stick that is no number is a centred stick. */
  lemma StickDefault(rc: RcSample)
    ensures !rc.roll.Fin? ==> StickToRate(rc).roll == Fin(0.0) && StickToAttitude(rc).x == Fin(0.0)
    ensures !rc.pitch.Fin? ==> StickToRate(rc).pitch == Fin(0.0) && StickToAttitude(rc).y == Fin(0.0)
    ensures !rc.yaw.Fin? ==> StickToRate(rc).yaw == Fin(0.0)
    ensures !rc.throttle.Fin? ==> StickToRate(rc).throttle == Fin(0.0)
  {
  }
}
