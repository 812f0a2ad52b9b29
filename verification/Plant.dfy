/** The plant's rotor sums, and what they make of the mixer's duties at steady motor speed. */
module Plant {
  import opened Floats
  import opened Ports
  import opened Mixer
  import opened Vectors
  import Pid

  const ARM_LENGTH_M: real := 0.043
  const K_T: real := 0.000000047
  const K_Q: real := 0.0000000008
  const OMEGA_MAX: real := 2500.0
  const VBAT_NOMINAL: real := 3.85
  const TAU_M_S: real := 0.03

  type Quad = q: seq<real> | |q| == 4 witness [0.0, 0.0, 0.0, 0.0]

  /** A rotor in the body frame of x forward, y left; dir is the sign of its yaw reaction. */
  datatype Rotor = Rotor(x: real, y: real, dir: real)

  const ROTORS: seq<Rotor> := [
    Rotor(-ARM_LENGTH_M, -ARM_LENGTH_M, 1.0),
    Rotor(ARM_LENGTH_M, -ARM_LENGTH_M, -1.0),
    Rotor(-ARM_LENGTH_M, ARM_LENGTH_M, -1.0),
    Rotor(ARM_LENGTH_M, ARM_LENGTH_M, 1.0)]

  /** Full-duty motor speed at a battery voltage. */
  function FullSpeed(vbat: Float): real {
    OMEGA_MAX * (Max(OrZero(vbat), 0.0) / VBAT_NOMINAL)
  }

  /** The speed a motor settles at. */
  function PwmToOmega(duty: real, vbat: Float): real {
    Clamp(Fin(duty), 0.0, 1.0) * FullSpeed(vbat)
  }

  function OmegaDot(om: Quad, duty: Quad, vbat: Float): Quad {
    seq(4, i requires 0 <= i < 4 => (PwmToOmega(duty[i], vbat) - om[i]) / TAU_M_S)
  }

  /** What one rotor produces: thrust for k = K_T, reaction torque for k = K_Q. */
  function Load(k: real, om: real): real {
    k * om * om
  }

  function Loads(k: real, om: Quad): Quad {
    [Load(k, om[0]), Load(k, om[1]), Load(k, om[2]), Load(k, om[3])]
  }

  function Total(f: Quad): real {
    f[0] + f[1] + f[2] + f[3]
  }

  function TorqueX(thrust: Quad): real {
    Total(seq(4, i requires 0 <= i < 4 => ROTORS[i].y * thrust[i]))
  }

  function TorqueY(thrust: Quad): real {
    -Total(seq(4, i requires 0 <= i < 4 => ROTORS[i].x * thrust[i]))
  }

  function TorqueZ(drag: Quad): real {
    Total(seq(4, i requires 0 <= i < 4 => ROTORS[i].dir * drag[i]))
  }

  function ToFrd(v: RVec): RVec {
    RVec(v.x, -v.y, -v.z)
  }

  /** Roll, pitch and yaw torque as the sensors and the controller see them. */
  function FrdTorque(om: Quad): RVec {
    ToFrd(RVec(TorqueX(Loads(K_T, om)), TorqueY(Loads(K_T, om)), TorqueZ(Loads(K_Q, om))))
  }

  /** The motors have settled on the duties. */
  predicate Steady(om: Quad, duty: Quad, vbat: Float) {
    OmegaDot(om, duty, vbat) == [0.0, 0.0, 0.0, 0.0]
  }

  /** There is exactly one such state for any duties and any battery reading. */
  lemma SteadyIff(om: Quad, duty: Quad, vbat: Float)
    ensures Steady(om, duty, vbat)
            <==> forall i | 0 <= i < 4 :: om[i] == PwmToOmega(duty[i], vbat)
  {
    hide PwmToOmega;
    var d := OmegaDot(om, duty, vbat);
    if Steady(om, duty, vbat) {
      assert d[0] == 0.0 && d[1] == 0.0 && d[2] == 0.0 && d[3] == 0.0;
    }
  }

  lemma SteadyMeans(om: Quad, d: Quad, vbat: Float)
    requires Steady(om, d, vbat) && InUnit(d)
    ensures forall i | 0 <= i < 4 :: om[i] == d[i] * FullSpeed(vbat)
  {
    hide FullSpeed;
    forall i | 0 <= i < 4
      ensures om[i] == d[i] * FullSpeed(vbat)
    {
      assert OmegaDot(om, d, vbat)[i] == 0.0;
    }
  }

  // --- in terms of the squared duties ----------------------------------------------------------

  function Square(x: real): real {
    x * x
  }

  /** Roll, pitch and yaw readings of four squared duties through the sign table. */
  function Reading(q: Quad): RVec {
    RVec(-q[0] - q[1] + q[2] + q[3], q[0] - q[1] + q[2] - q[3], -q[0] + q[1] + q[2] - q[3])
  }

  function Squares(d: Quad): Quad {
    [Square(d[0]), Square(d[1]), Square(d[2]), Square(d[3])]
  }

  /** Thrust, or reaction torque, of a motor at full duty. */
  function Gain(k: real, vbat: Float): real {
    k * Square(FullSpeed(vbat))
  }

  function Mul(c: real, x: real): real {
    c * x
  }

  function Scaled(c: real, q: Quad): Quad {
    [Mul(c, q[0]), Mul(c, q[1]), Mul(c, q[2]), Mul(c, q[3])]
  }

  lemma SteadyLoads(k: real, om: Quad, d: Quad, vbat: Float)
    requires Steady(om, d, vbat) && InUnit(d)
    ensures Loads(k, om) == Scaled(Gain(k, vbat), Squares(d))
  {
    SteadyMeans(om, d, vbat);
    hide FullSpeed, Square, Steady, InUnit, Gain, Load, Mul;
    OneLoad(k, om[0], d[0], vbat);
    OneLoad(k, om[1], d[1], vbat);
    OneLoad(k, om[2], d[2], vbat);
    OneLoad(k, om[3], d[3], vbat);
  }

  lemma OneLoad(k: real, om: real, d: real, vbat: Float)
    requires om == d * FullSpeed(vbat)
    ensures Load(k, om) == Mul(Gain(k, vbat), Square(d))
  {
    var w := FullSpeed(vbat);
    hide FullSpeed;
    SquareOfProduct(d, w);
    assert k * (d * w) * (d * w) == k * ((d * w) * (d * w));
    assert k * ((w * w) * (d * d)) == (k * (w * w)) * (d * d);
  }

  /** The rotor geometry is the sign table, up to the arm length and the change of frame. */
  lemma GeometryIsSignTable(f: Quad)
    ensures TorqueX(f) == ARM_LENGTH_M * Reading(f).x
    ensures TorqueY(f) == ARM_LENGTH_M * Reading(f).y
    ensures TorqueZ(f) == -Reading(f).z
  {
  }

  lemma ReadingScales(c: real, q: Quad)
    ensures Reading(Scaled(c, q)) == RVec(c * Reading(q).x, c * Reading(q).y, c * Reading(q).z)
    ensures Total(Scaled(c, q)) == c * Total(q)
  {
  }

  /** The torques of settled motors are the readings of the squared duties, scaled. */
  lemma SteadyTorque(om: Quad, d: Quad, vbat: Float)
    requires Steady(om, d, vbat) && InUnit(d)
    ensures var g := Reading(Squares(d));
            FrdTorque(om) == RVec(ARM_LENGTH_M * (Gain(K_T, vbat) * g.x), -(ARM_LENGTH_M * (Gain(K_T, vbat) * g.y)),
                                  Gain(K_Q, vbat) * g.z)
    ensures Total(Loads(K_T, om)) == Gain(K_T, vbat) * Total(Squares(d))
  {
    hide Steady, Loads, Squares, Scaled, Reading, TorqueX, TorqueY, TorqueZ, Gain, Total;
    SteadyLoads(K_T, om, d, vbat);
    SteadyLoads(K_Q, om, d, vbat);
    GeometryIsSignTable(Loads(K_T, om));
    GeometryIsSignTable(Loads(K_Q, om));
    ReadingScales(Gain(K_T, vbat), Squares(d));
    ReadingScales(Gain(K_Q, vbat), Squares(d));
  }

  /** What decides an axis: its command a times the collective, plus the product of the other two. */
  function Pull(collective: real, a: real, b: real, c: real): real {
    collective * a + b * c
  }

  /** The reading of one axis. */
  function Coupled(collective: real, a: real, b: real, c: real): real {
    8.0 * Pull(collective, a, b, c)
  }

  /** Squaring the sign table couples the axes in pairs. */
  lemma ReadingOfPremix(collective: real, r: real, p: real, y: real)
    ensures Reading(Squares(Premix(collective, r, p, y)))
         == RVec(Coupled(collective, r, p, y), Coupled(collective, p, r, y), Coupled(collective, y, r, p))
    ensures Total(Squares(Premix(collective, r, p, y)))
         == 4.0 * (Square(collective) + Square(r) + Square(p) + Square(y))
  {
  }

  // --- the sign contract -----------------------------------------------------------------------

  /** A command as the mixer understands it: clamped, with the collective after the shift. */
  datatype Command = Command(collective: real, roll: real, pitch: real, yaw: real)

  function CommandOf(thr: Float, roll: Float, pitch: Float, yaw: Float): Command {
    Command(Clamp(thr, 0.0, 1.0) + ShiftOf(thr, roll, pitch, yaw), Clamp(roll, -1.0, 1.0), Clamp(pitch, -1.0, 1.0),
            Clamp(yaw, -1.0, 1.0))
  }

  predicate Fits(c: Command) {
    TwoLargest(c.roll, c.pitch, c.yaw) <= 0.5
  }

  lemma PremixShifts(t: real, s: real, r: real, p: real, y: real)
    ensures Shifted(Premix(t, r, p, y), s) == Premix(t + s, r, p, y)
  {
  }

  /** Duties that nothing clips are the sign table at the shifted collective. */
  lemma UnclippedDuties(thr: Float, roll: Float, pitch: Float, yaw: Float)
    requires Fits(CommandOf(thr, roll, pitch, yaw))
    ensures var c := CommandOf(thr, roll, pitch, yaw);
            Duties(thr, roll, pitch, yaw) == Premix(c.collective, c.roll, c.pitch, c.yaw)
  {
    hide Premix, Clamp, Shifted, DesatShift, TwoLargest, Clipped;
    var (t, r) := (Clamp(thr, 0.0, 1.0), Clamp(roll, -1.0, 1.0));
    var (p, y) := (Clamp(pitch, -1.0, 1.0), Clamp(yaw, -1.0, 1.0));
    FitsIff(t, r, p, y);
    PremixShifts(t, ShiftOf(thr, roll, pitch, yaw), r, p, y);
  }

  /** The exact law: once the motors have settled on duties that nothing clipped, each torque is the
      product of collective and command plus the product of the other two commands. */
  lemma TorqueLaw(thr: Float, roll: Float, pitch: Float, yaw: Float, vbat: Float, om: Quad)
    requires Fits(CommandOf(thr, roll, pitch, yaw)) && Steady(om, Duties(thr, roll, pitch, yaw), vbat)
    ensures var c := CommandOf(thr, roll, pitch, yaw);
            var (t, q) := (Gain(K_T, vbat), Gain(K_Q, vbat));
            && FrdTorque(om) == RVec(ARM_LENGTH_M * (t * (Coupled(c.collective, c.roll, c.pitch, c.yaw))),
                                     -(ARM_LENGTH_M * (t * (Coupled(c.collective, c.pitch, c.roll, c.yaw)))),
                                     q * (Coupled(c.collective, c.yaw, c.roll, c.pitch)))
            && Total(Loads(K_T, om))
               == t * (4.0 * (Square(c.collective) + Square(c.roll) + Square(c.pitch) + Square(c.yaw)))
  {
    hide Steady, Duties, FrdTorque, Gain, Loads, Total, Squares, Reading, Square, Premix, InUnit, Coupled;
    var d := Duties(thr, roll, pitch, yaw);
    var c := CommandOf(thr, roll, pitch, yaw);
    hide CommandOf, Fits;
    UnitDuties(thr, roll, pitch, yaw);
    UnclippedDuties(thr, roll, pitch, yaw);
    ReadingOfPremix(c.collective, c.roll, c.pitch, c.yaw);
    SteadyTorque(om, d, vbat);
  }

  function Sign(x: real): int {
    if x < 0.0 then -1 else if x > 0.0 then 1 else 0
  }

  lemma SignOfProduct(k: real, x: real)
    requires k > 0.0
    ensures Sign(k * x) == Sign(x)
  {
    if x > 0.0 { MulPos(k, x); }
    if x < 0.0 { MulPos(k, -x); }
  }

  lemma SquareDiff(a: real, b: real)
    requires 0.0 <= a && 0.0 <= b
    ensures Sign(Square(b) - Square(a)) == Sign(b - a)
  {
    Distribute(b + a, b, a);
    Distribute(b, b, a);
    Distribute(a, b, a);
    if a < b { MulPos(b + a, b - a); }
    if b < a { MulPos(b + a, a - b); }
  }

  lemma GainPositive(k: real, vbat: Float)
    requires k > 0.0 && vbat.Fin? && vbat.v > 0.0
    ensures Gain(k, vbat) > 0.0
  {
    var w := FullSpeed(vbat);
    assert w > 0.0;
    SquareDiff(0.0, w);
    MulPos(k, Square(w));
  }

  /** With a live battery the sign of each torque is the sign of its reading, pitch reversed. */
  lemma TorqueSigns(om: Quad, d: Quad, vbat: Float)
    requires Steady(om, d, vbat) && InUnit(d) && vbat.Fin? && vbat.v > 0.0
    ensures var g := Reading(Squares(d));
            var tau := FrdTorque(om);
            Sign(tau.x) == Sign(g.x) && Sign(tau.y) == -Sign(g.y) && Sign(tau.z) == Sign(g.z)
  {
    hide Steady, Squares, Reading, Gain, FrdTorque, Loads, Total;
    SteadyTorque(om, d, vbat);
    GainPositive(K_T, vbat);
    GainPositive(K_Q, vbat);
    var g := Reading(Squares(d));
    SignOfProduct(Gain(K_T, vbat), g.x);
    SignOfProduct(Gain(K_T, vbat), g.y);
    SignOfProduct(Gain(K_Q, vbat), g.z);
  }

  function AxisDuties(thr: Float, cmd: Float, axis: nat): (d: Quad)
    requires axis < 3
    ensures InUnit(d)
  {
    Duties(thr, if axis == 0 then cmd else ZERO, if axis == 1 then cmd else ZERO, if axis == 2 then cmd else ZERO)
  }

  /** Two motors at one duty and two at another, split by the sign column of an axis. */
  function Split(axis: nat, low: real, high: real): Quad
    requires axis < 3
  {
    if axis == 0 then [low, low, high, high]
    else if axis == 1 then [high, low, high, low]
    else [low, high, high, low]
  }

  lemma AxisSplit(thr: Float, cmd: Float, axis: nat) returns (low: real, high: real)
    requires axis < 3
    ensures AxisDuties(thr, cmd, axis) == Split(axis, low, high)
    ensures 0.0 <= low && 0.0 <= high && Sign(high - low) == Sign(Clamp(cmd, -1.0, 1.0))
  {
    var (t, c) := (Clamp(thr, 0.0, 1.0), Clamp(cmd, -1.0, 1.0));
    hide *;
    low, high := SplitDesaturates(axis, t, c);
    AxisDesaturated(thr, cmd, axis);
  }

  function Desaturated(m: Quad): seq<real> {
    Clipped(Shifted(m, DesatShift(m)))
  }

  lemma DutiesAreDesaturated(thr: Float, roll: Float, pitch: Float, yaw: Float)
    ensures Duties(thr, roll, pitch, yaw)
         == DutiesOf(Clamp(thr, 0.0, 1.0), Clamp(roll, -1.0, 1.0), Clamp(pitch, -1.0, 1.0), Clamp(yaw, -1.0, 1.0))
  {
    hide Clamp, DesatShift, Clipped, Shifted, Premix, InUnit;
  }

  lemma ZeroClamped()
    ensures Clamp(ZERO, -1.0, 1.0) == 0.0
  {
  }

  lemma AxisDesaturated(thr: Float, cmd: Float, axis: nat)
    requires axis < 3
    ensures var (t, c) := (Clamp(thr, 0.0, 1.0), Clamp(cmd, -1.0, 1.0));
            AxisDuties(thr, cmd, axis) == Desaturated(Split(axis, t - c, t + c))
  {
    hide Clamp, Desaturated, Split, Premix, InUnit, Duties;
    ZeroClamped();
    SplitPremix(Clamp(thr, 0.0, 1.0), Clamp(cmd, -1.0, 1.0), axis);
    if axis == 0 {
      DutiesAreDesaturated(thr, cmd, ZERO, ZERO);
    } else if axis == 1 {
      DutiesAreDesaturated(thr, ZERO, cmd, ZERO);
    } else {
      DutiesAreDesaturated(thr, ZERO, ZERO, cmd);
    }
  }

  lemma SplitPremix(t: real, c: real, axis: nat)
    requires axis < 3
    ensures Premix(t, if axis == 0 then c else 0.0, if axis == 1 then c else 0.0, if axis == 2 then c else 0.0)
         == Split(axis, t - c, t + c)
  {
  }

  /** Desaturation and the final clamp keep the two levels of a single-axis command in order. */
  lemma SplitDesaturates(axis: nat, t: real, c: real) returns (low: real, high: real)
    requires axis < 3
    ensures Desaturated(Split(axis, t - c, t + c)) == Split(axis, low, high)
    ensures 0.0 <= low && 0.0 <= high && Sign(high - low) == Sign(c)
  {
    hide Desaturated;
    var m := Split(axis, t - c, t + c);
    var d := Desaturated(m);
    DesaturatedOrder(m);
    AllEqual(d);
    low, high := if axis == 1 then d[1] else d[0], d[2];
  }

  lemma SplitReading(axis: nat, low: real, high: real)
    requires axis < 3 && 0.0 <= low && 0.0 <= high
    ensures var g := Reading(Squares(Split(axis, low, high)));
            var s := Sign(high - low);
            && Sign(g.x) == (if axis == 0 then s else 0)
            && Sign(g.y) == (if axis == 1 then s else 0)
            && Sign(g.z) == (if axis == 2 then s else 0)
  {
    var e := Square(high) - Square(low);
    SquareDiff(low, high);
    var g := Reading(Squares(Split(axis, low, high)));
    assert g == RVec(if axis == 0 then 2.0 * e else 0.0, if axis == 1 then 2.0 * e else 0.0,
                     if axis == 2 then 2.0 * e else 0.0);
  }

  /** The sign contract for single-axis commands, of any size and at any throttle, clipped or not: the
      commanded axis turns the documented way and the other two stay at zero. */
  lemma SingleAxisSigns(thr: Float, cmd: Float, vbat: Float, axis: nat, om: Quad)
    requires axis < 3 && vbat.Fin? && vbat.v > 0.0
    requires Steady(om, AxisDuties(thr, cmd, axis), vbat)
    ensures var tau := FrdTorque(om);
            var s := Sign(Clamp(cmd, -1.0, 1.0));
            && Sign(tau.x) == (if axis == 0 then s else 0)
            && Sign(tau.y) == (if axis == 1 then -s else 0)
            && Sign(tau.z) == (if axis == 2 then s else 0)
  {
    hide Steady, FrdTorque, AxisDuties, Reading, Squares, Split, Clamp, Sign;
    TorqueSigns(om, AxisDuties(thr, cmd, axis), vbat);
    var low, high := AxisSplit(thr, cmd, axis);
    SplitReading(axis, low, high);
  }

  /** Commands on several axes disturb one another, clipped or not, but never reverse the largest: its
      two raised motors stay at or above the two lowered ones, one of them strictly. */
  lemma LargestAxisSigns(thr: Float, roll: Float, pitch: Float, yaw: Float, vbat: Float, om: Quad)
    requires Steady(om, Duties(thr, roll, pitch, yaw), vbat) && vbat.Fin? && vbat.v > 0.0
    ensures var c := CommandOf(thr, roll, pitch, yaw);
            var tau := FrdTorque(om);
            && (Largest(c.roll, c.pitch, c.yaw) ==> Sign(tau.x) == Sign(c.roll))
            && (Largest(c.pitch, c.roll, c.yaw) ==> Sign(tau.y) == -Sign(c.pitch))
            && (Largest(c.yaw, c.roll, c.pitch) ==> Sign(tau.z) == Sign(c.yaw))
  {
    hide Steady, FrdTorque, Reading, Squares, Sign, Clamp, DutiesOf, Duties, Largest;
    UnitDuties(thr, roll, pitch, yaw);
    TorqueSigns(om, Duties(thr, roll, pitch, yaw), vbat);
    DutiesAreDesaturated(thr, roll, pitch, yaw);
    LargestReading(Clamp(thr, 0.0, 1.0), Clamp(roll, -1.0, 1.0), Clamp(pitch, -1.0, 1.0), Clamp(yaw, -1.0, 1.0));
  }

  /** Only a strictly smallest command can be reversed: one at least as large as another axis either
      turns the documented way or, at worst, not at all. */
  lemma OnlySmallestReverses(thr: Float, roll: Float, pitch: Float, yaw: Float, vbat: Float, om: Quad)
    requires Steady(om, Duties(thr, roll, pitch, yaw), vbat) && vbat.Fin? && vbat.v > 0.0
    ensures var c := CommandOf(thr, roll, pitch, yaw);
            var tau := FrdTorque(om);
            && (NotSmallest(c.roll, c.pitch, c.yaw) ==> Sign(tau.x) == 0 || Sign(tau.x) == Sign(c.roll))
            && (NotSmallest(c.pitch, c.roll, c.yaw) ==> Sign(tau.y) == 0 || Sign(tau.y) == -Sign(c.pitch))
            && (NotSmallest(c.yaw, c.roll, c.pitch) ==> Sign(tau.z) == 0 || Sign(tau.z) == Sign(c.yaw))
  {
    hide Steady, FrdTorque, Reading, Squares, Sign, Clamp, DutiesOf, Duties, NotSmallest;
    UnitDuties(thr, roll, pitch, yaw);
    TorqueSigns(om, Duties(thr, roll, pitch, yaw), vbat);
    DutiesAreDesaturated(thr, roll, pitch, yaw);
    NotSmallestReading(Clamp(thr, 0.0, 1.0), Clamp(roll, -1.0, 1.0), Clamp(pitch, -1.0, 1.0), Clamp(yaw, -1.0, 1.0));
  }

  predicate Largest(a: real, b: real, c: real) {
    Abs(a) >= Abs(b) && Abs(a) >= Abs(c)
  }

  predicate NotSmallest(a: real, b: real, c: real) {
    Abs(a) >= Abs(b) || Abs(a) >= Abs(c)
  }

  /** Desaturation and the final clamp never exchange two channels, and never merge the highest with
      the lowest. */
  lemma DesaturatedOrder(m: Quad)
    ensures var d := Desaturated(m);
            && |d| == 4 && InUnit(d)
            && (forall j, k | 0 <= j < 4 && 0 <= k < 4 && m[j] <= m[k] :: d[j] <= d[k])
            && (MinOf(m) < MaxOf(m) ==> MinOf(d) < MaxOf(d))
  {
    var s := DesatShift(m);
    var d := Desaturated(m);
    assert forall k | 0 <= k < 4 :: d[k] == Clamp(Fin(m[k] + s), 0.0, 1.0);
    var h, l := Extremes(m);
    assert d[l] <= d[h];
    if MinOf(m) < MaxOf(m) {
      assert MinOf(m) + s < 1.0 && MaxOf(m) + s > 0.0 && m[l] + s < m[h] + s;
      assert d[l] < d[h];
      MinMaxBounds(d, l, h);
    }
  }

  lemma MinMaxBounds(d: Quad, l: nat, h: nat)
    requires l < 4 && h < 4
    ensures MinOf(d) <= d[l] && d[h] <= MaxOf(d)
  {
  }

  /** Two raised duties against two lowered ones. */
  lemma RaisedPair(lo1: real, lo2: real, hi1: real, hi2: real)
    requires 0.0 <= lo1 <= hi1 && 0.0 <= lo2 <= hi2
    ensures var g := Square(hi1) + Square(hi2) - Square(lo1) - Square(lo2);
            g >= 0.0 && (g == 0.0 ==> hi1 == lo1 && hi2 == lo2)
  {
    hide Square;
    SquareDiff(lo1, hi1);
    SquareDiff(lo2, hi2);
  }

  /** All four relations between the pairs, and not all four duties equal. */
  lemma RaisedStrictly(lo1: real, lo2: real, hi1: real, hi2: real)
    requires 0.0 <= lo1 <= hi1 && 0.0 <= lo2 <= hi2 && lo1 <= hi2 && lo2 <= hi1
    requires !(lo1 == lo2 == hi1 == hi2)
    ensures Square(hi1) + Square(hi2) - Square(lo1) - Square(lo2) > 0.0
  {
    hide Square;
    RaisedPair(lo1, lo2, hi1, hi2);
  }

  function DutiesOf(t: real, r: real, p: real, y: real): Quad {
    Desaturated(Premix(t, r, p, y))
  }

  /** Two numbers in the order of x's sign. */
  predicate Ordered(x: real, low: real, high: real) {
    (x >= 0.0 ==> low <= high) && (x <= 0.0 ==> high <= low)
  }

  /** How command a, against b and c, orders the duties it lowers and those it raises. */
  predicate AxisOrder(a: real, b: real, c: real, lo1: real, lo2: real, hi1: real, hi2: real) {
    && Ordered(a + b, lo1, hi1) && Ordered(a - b, lo2, hi2)
    && Ordered(a + c, lo2, hi1) && Ordered(a - c, lo1, hi2)
    && 0.0 <= lo1 && 0.0 <= lo2 && 0.0 <= hi1 && 0.0 <= hi2
    && (a != 0.0 || b != 0.0 || c != 0.0 ==> !(lo1 == lo2 == hi1 == hi2))
  }

  lemma OrderCarries(m: Quad, j: nat, k: nat, x: real)
    requires j < 4 && k < 4 && m[k] - m[j] == 2.0 * x
    ensures Ordered(x, Desaturated(m)[j], Desaturated(m)[k])
  {
    hide Desaturated;
    DesaturatedOrder(m);
  }

  lemma DutyOrder(t: real, r: real, p: real, y: real)
    ensures var d := DutiesOf(t, r, p, y);
            && AxisOrder(r, p, y, d[1], d[0], d[2], d[3])
            && AxisOrder(p, y, r, d[3], d[1], d[2], d[0])
            && AxisOrder(y, p, r, d[3], d[0], d[2], d[1])
  {
    hide Desaturated, Ordered, MinOf, MaxOf;
    var m := Premix(t, r, p, y);
    OrderCarries(m, 1, 2, r + p); OrderCarries(m, 0, 3, r - p);
    OrderCarries(m, 0, 2, r + y); OrderCarries(m, 1, 3, r - y);
    OrderCarries(m, 3, 2, p + y); OrderCarries(m, 1, 0, p - y);
    OrderCarries(m, 1, 2, p + r); OrderCarries(m, 3, 0, p - r);
    OrderCarries(m, 3, 2, y + p); OrderCarries(m, 0, 1, y - p);
    OrderCarries(m, 0, 2, y + r); OrderCarries(m, 3, 1, y - r);
    hide Premix;
    DesaturatedOrder(m);
    Spread(t, r, p, y);
    AllEqual(Desaturated(m));
  }

  lemma AllEqual(d: Quad)
    ensures d[0] == d[1] == d[2] == d[3] ==> MinOf(d) == MaxOf(d)
  {
  }

  lemma LargestReading(t: real, r: real, p: real, y: real)
    ensures var g := Reading(Squares(DutiesOf(t, r, p, y)));
            && (Largest(r, p, y) ==> Sign(g.x) == Sign(r))
            && (Largest(p, r, y) ==> Sign(g.y) == Sign(p))
            && (Largest(y, r, p) ==> Sign(g.z) == Sign(y))
  {
    hide DutiesOf, Square, Sign, AxisOrder;
    var d := DutiesOf(t, r, p, y);
    DutyOrder(t, r, p, y);
    if Largest(r, p, y) { LargestDecides(r, p, y, d[1], d[0], d[2], d[3]); }
    if Largest(p, r, y) { LargestDecides(p, y, r, d[3], d[1], d[2], d[0]); }
    if Largest(y, r, p) { LargestDecides(y, p, r, d[3], d[0], d[2], d[1]); }
  }

  lemma LargestDecides(a: real, b: real, c: real, lo1: real, lo2: real, hi1: real, hi2: real)
    requires AxisOrder(a, b, c, lo1, lo2, hi1, hi2) && Largest(a, b, c)
    ensures Sign(Square(hi1) + Square(hi2) - Square(lo1) - Square(lo2)) == Sign(a)
  {
    hide Square;
    if a > 0.0 {
      RaisedStrictly(lo1, lo2, hi1, hi2);
    } else if a < 0.0 {
      RaisedStrictly(hi1, hi2, lo1, lo2);
    }
  }

  lemma NotSmallestReading(t: real, r: real, p: real, y: real)
    ensures var g := Reading(Squares(DutiesOf(t, r, p, y)));
            && (NotSmallest(r, p, y) ==> Sign(g.x) == 0 || Sign(g.x) == Sign(r))
            && (NotSmallest(p, r, y) ==> Sign(g.y) == 0 || Sign(g.y) == Sign(p))
            && (NotSmallest(y, r, p) ==> Sign(g.z) == 0 || Sign(g.z) == Sign(y))
  {
    hide DutiesOf, Square, Sign, AxisOrder;
    var d := DutiesOf(t, r, p, y);
    DutyOrder(t, r, p, y);
    if NotSmallest(r, p, y) { NotSmallestLeans(r, p, y, d[1], d[0], d[2], d[3]); }
    if NotSmallest(p, r, y) { NotSmallestLeans(p, y, r, d[3], d[1], d[2], d[0]); }
    if NotSmallest(y, r, p) { NotSmallestLeans(y, p, r, d[3], d[0], d[2], d[1]); }
  }

  lemma NotSmallestLeans(a: real, b: real, c: real, lo1: real, lo2: real, hi1: real, hi2: real)
    requires AxisOrder(a, b, c, lo1, lo2, hi1, hi2) && NotSmallest(a, b, c)
    ensures var g := Square(hi1) + Square(hi2) - Square(lo1) - Square(lo2); Sign(g) == 0 || Sign(g) == Sign(a)
  {
    hide Square;
    if Abs(a) >= Abs(b) {
      if a >= 0.0 { RaisedPair(lo1, lo2, hi1, hi2); }
      if a <= 0.0 { RaisedPair(hi1, hi2, lo1, lo2); }
    } else {
      if a >= 0.0 { RaisedPair(lo2, lo1, hi1, hi2); }
      if a <= 0.0 { RaisedPair(hi1, hi2, lo2, lo1); }
    }
  }

  /** The exact sign of every torque when nothing clips, and with it the exact condition of the sign
      contract: an axis turns the documented way if and only if collective times command and the product
      of the other two commands have a sum of the command's sign. */
  lemma AxisSignsIff(thr: Float, roll: Float, pitch: Float, yaw: Float, vbat: Float, om: Quad)
    requires Fits(CommandOf(thr, roll, pitch, yaw)) && Steady(om, Duties(thr, roll, pitch, yaw), vbat)
    requires vbat.Fin? && vbat.v > 0.0
    ensures var c := CommandOf(thr, roll, pitch, yaw);
            var tau := FrdTorque(om);
            var (gx, gy, gz) := (Pull(c.collective, c.roll, c.pitch, c.yaw),
                                 Pull(c.collective, c.pitch, c.roll, c.yaw),
                                 Pull(c.collective, c.yaw, c.roll, c.pitch));
            && Sign(tau.x) == Sign(gx) && Sign(tau.y) == -Sign(gy) && Sign(tau.z) == Sign(gz)
            && (Sign(tau.x) == Sign(c.roll) <==> Sign(gx) == Sign(c.roll))
            && (Sign(tau.y) == -Sign(c.pitch) <==> Sign(gy) == Sign(c.pitch))
            && (Sign(tau.z) == Sign(c.yaw) <==> Sign(gz) == Sign(c.yaw))
  {
    hide Steady, FrdTorque, Duties, Reading, Squares, Sign, Premix, Fits, InUnit, CommandOf, Coupled, Pull;
    var c := CommandOf(thr, roll, pitch, yaw);
    UnitDuties(thr, roll, pitch, yaw);
    TorqueSigns(om, Duties(thr, roll, pitch, yaw), vbat);
    UnclippedDuties(thr, roll, pitch, yaw);
    ReadingOfPremix(c.collective, c.roll, c.pitch, c.yaw);
    CoupledSign(c.collective, c.roll, c.pitch, c.yaw);
    CoupledSign(c.collective, c.pitch, c.roll, c.yaw);
    CoupledSign(c.collective, c.yaw, c.roll, c.pitch);
  }

  /** The duties of a command that clips: each channel above the lowest one, capped at full duty. The
      throttle no longer matters. */
  function Levels(r: real, p: real, y: real): Quad {
    var m := Premix(0.0, r, p, y);
    seq(4, k requires 0 <= k < 4 => Min(1.0, m[k] - MinOf(m)))
  }

  /** The exact sign of every torque when something clips, from the three axis commands alone. */
  lemma ClippedAxisSigns(thr: Float, roll: Float, pitch: Float, yaw: Float, vbat: Float, om: Quad)
    requires !Fits(CommandOf(thr, roll, pitch, yaw)) && Steady(om, Duties(thr, roll, pitch, yaw), vbat)
    requires vbat.Fin? && vbat.v > 0.0
    ensures var c := CommandOf(thr, roll, pitch, yaw);
            var (tau, g) := (FrdTorque(om), Reading(Squares(Levels(c.roll, c.pitch, c.yaw))));
            Sign(tau.x) == Sign(g.x) && Sign(tau.y) == -Sign(g.y) && Sign(tau.z) == Sign(g.z)
  {
    hide Steady, FrdTorque, Reading, Squares, Sign, ShiftOf, Clamp, TwoLargest, Duties, Levels;
    UnitDuties(thr, roll, pitch, yaw);
    TorqueSigns(om, Duties(thr, roll, pitch, yaw), vbat);
    ClippedDuties(thr, roll, pitch, yaw);
  }

  /** Twice a difference of commands, capped at full duty. */
  function Capped(x: real): real {
    Min(1.0, 2.0 * x)
  }

  /** What decides the smallest axis c of a command that clips, a and b being the other two. */
  function ClippedPull(a: real, b: real, c: real): real {
    if (a >= 0.0) == (b >= 0.0) then 1.0 - Square(Capped(Abs(a) - c)) - Square(Capped(Abs(b) - c))
    else Square(Capped(Abs(a) + c)) + Square(Capped(Abs(b) + c)) - 1.0
  }

  predicate Smallest(c: real, a: real, b: real) {
    Abs(c) <= Abs(a) && Abs(c) <= Abs(b)
  }

  lemma SquareOfOne()
    ensures Square(1.0) == 1.0 && Square(0.0) == 0.0
  {
  }

  lemma SmallestYawReading(r: real, p: real, y: real)
    requires Smallest(y, r, p) && TwoLargest(r, p, y) > 0.5
    ensures Reading(Squares(Levels(r, p, y))).z == ClippedPull(r, p, y)
  {
    hide Square;
    SquareOfOne();
    var (m, l) := (Premix(0.0, r, p, y), Levels(r, p, y));
    var k := if r >= 0.0 then (if p >= 0.0 then 1 else 0) else if p >= 0.0 then 3 else 2;
    assert MinOf(m) == m[k];
  }

  lemma SmallestPitchReading(r: real, p: real, y: real)
    requires Smallest(p, r, y) && TwoLargest(r, p, y) > 0.5
    ensures Reading(Squares(Levels(r, p, y))).y == ClippedPull(r, y, p)
  {
    hide Square;
    SquareOfOne();
    var (m, l) := (Premix(0.0, r, p, y), Levels(r, p, y));
    var k := if r >= 0.0 then (if y >= 0.0 then 0 else 1) else if y >= 0.0 then 3 else 2;
    assert MinOf(m) == m[k];
  }

  lemma SmallestRollReading(r: real, p: real, y: real)
    requires Smallest(r, p, y) && TwoLargest(r, p, y) > 0.5
    ensures Reading(Squares(Levels(r, p, y))).x == ClippedPull(p, y, r)
  {
    hide Square;
    SquareOfOne();
    var (m, l) := (Premix(0.0, r, p, y), Levels(r, p, y));
    var k := if p >= 0.0 then (if y >= 0.0 then 3 else 1) else if y >= 0.0 then 0 else 2;
    assert MinOf(m) == m[k];
  }

  /** The one axis that a clipped command can reverse, in closed form: the smallest axis turns the
      documented way if and only if its clipped pull has the command's sign. */
  lemma SmallestClippedIff(thr: Float, roll: Float, pitch: Float, yaw: Float, vbat: Float, om: Quad)
    requires !Fits(CommandOf(thr, roll, pitch, yaw)) && Steady(om, Duties(thr, roll, pitch, yaw), vbat)
    requires vbat.Fin? && vbat.v > 0.0
    ensures var c := CommandOf(thr, roll, pitch, yaw);
            var tau := FrdTorque(om);
            var (gx, gy, gz) := (ClippedPull(c.pitch, c.yaw, c.roll), ClippedPull(c.roll, c.yaw, c.pitch),
                                 ClippedPull(c.roll, c.pitch, c.yaw));
            && (Smallest(c.roll, c.pitch, c.yaw) ==>
                  Sign(tau.x) == Sign(gx) && (Sign(tau.x) == Sign(c.roll) <==> Sign(gx) == Sign(c.roll)))
            && (Smallest(c.pitch, c.roll, c.yaw) ==>
                  Sign(tau.y) == -Sign(gy) && (Sign(tau.y) == -Sign(c.pitch) <==> Sign(gy) == Sign(c.pitch)))
            && (Smallest(c.yaw, c.roll, c.pitch) ==>
                  Sign(tau.z) == Sign(gz) && (Sign(tau.z) == Sign(c.yaw) <==> Sign(gz) == Sign(c.yaw)))
  {
    hide Steady, FrdTorque, Reading, Squares, Sign, CommandOf, Duties, Levels, ClippedPull, TwoLargest, Smallest;
    ClippedAxisSigns(thr, roll, pitch, yaw, vbat, om);
    var c := CommandOf(thr, roll, pitch, yaw);
    if Smallest(c.roll, c.pitch, c.yaw) { SmallestRollReading(c.roll, c.pitch, c.yaw); }
    if Smallest(c.pitch, c.roll, c.yaw) { SmallestPitchReading(c.roll, c.pitch, c.yaw); }
    if Smallest(c.yaw, c.roll, c.pitch) { SmallestYawReading(c.roll, c.pitch, c.yaw); }
  }

  lemma ClippedDuties(thr: Float, roll: Float, pitch: Float, yaw: Float)
    requires !Fits(CommandOf(thr, roll, pitch, yaw))
    ensures var c := CommandOf(thr, roll, pitch, yaw); Duties(thr, roll, pitch, yaw) == Levels(c.roll, c.pitch, c.yaw)
  {
    hide ShiftOf, Clamp, TwoLargest, Duties, MinOf, Premix;
    SaturatedLaw(thr, roll, pitch, yaw);
    var (r, p, y) := (Clamp(roll, -1.0, 1.0), Clamp(pitch, -1.0, 1.0), Clamp(yaw, -1.0, 1.0));
    AboveLowest(Clamp(thr, 0.0, 1.0), r, p, y);
    var (d, l) := (Duties(thr, roll, pitch, yaw), Levels(r, p, y));
    var (m, z) := (PremixOf(thr, roll, pitch, yaw), Premix(0.0, r, p, y));
    forall k | 0 <= k < 4
      ensures d[k] == l[k]
    {
      assert d[k] == Min(1.0, m[k] - MinOf(m)) && l[k] == Min(1.0, z[k] - MinOf(z));
      assert m[k] - MinOf(m) == z[k] - MinOf(z);
    }
  }

  lemma AboveLowest(t: real, r: real, p: real, y: real)
    ensures var (m, z) := (Premix(t, r, p, y), Premix(0.0, r, p, y));
            forall k | 0 <= k < 4 :: m[k] - MinOf(m) == z[k] - MinOf(z)
  {
  }

  lemma CoupledSign(collective: real, a: real, b: real, c: real)
    ensures Sign(Coupled(collective, a, b, c)) == Sign(Pull(collective, a, b, c))
  {
    SignOfProduct(8.0, Pull(collective, a, b, c));
  }

  lemma UnitDuties(thr: Float, roll: Float, pitch: Float, yaw: Float)
    ensures InUnit(Duties(thr, roll, pitch, yaw))
  {
  }

  /** A smaller command can be reversed: at half throttle a roll command of 0.05 against a quarter of
      pitch and of opposite yaw rolls the craft the other way, with nothing clipped. */
  lemma SmallerAxisMayReverse(vbat: Float, om: Quad)
    requires vbat.Fin? && vbat.v > 0.0
    requires Steady(om, Duties(Fin(0.5), Fin(0.05), Fin(0.25), Fin(-0.25)), vbat)
    ensures Fits(CommandOf(Fin(0.5), Fin(0.05), Fin(0.25), Fin(-0.25))) && FrdTorque(om).x < 0.0
  {
    hide Steady, FrdTorque;
    var d := Duties(Fin(0.5), Fin(0.05), Fin(0.25), Fin(-0.25));
    TorqueSigns(om, d, vbat);
    UnclippedDuties(Fin(0.5), Fin(0.05), Fin(0.25), Fin(-0.25));
  }

  // --- the closed loop -------------------------------------------------------------------------

  function SpinOf(axis: nat, w: real): Vec3
    requires axis < 3
  {
    Vec3(Fin(if axis == 0 then w else 0.0), Fin(if axis == 1 then w else 0.0), Fin(if axis == 2 then w else 0.0))
  }

  lemma FirstIntegral(g: Pid.Gains, e: real)
    requires g.ki >= 0.0 && g.iLimit >= 0.0
    ensures var i := Pid.IntegralStep(g, 0.0, e, Pid.CONTROL_DT_S, false, false);
            (e >= 0.0 ==> i >= 0.0) && (e <= 0.0 ==> i <= 0.0)
  {
    if e >= 0.0 {
      MulNonneg(g.ki, e);
    } else {
      MulNonneg(g.ki, -e);
      NegTimes(-e, g.ki);
    }
  }

  lemma FirstDerivative(g: Pid.Gains, meas: real)
    ensures Pid.DFilterStep(g, Pid.AT_REST, meas, Pid.CONTROL_DT_S) == 0.0
  {
    hide Pid.Alpha;
  }

  lemma FirstTerms(g: Pid.Gains, e: real, i: real)
    requires g.kp > 0.0 && (e >= 0.0 ==> i >= 0.0) && (e <= 0.0 ==> i <= 0.0)
    ensures Sign(Pid.Terms(g, e, i, 0.0)) == Sign(e)
  {
    SignOfProduct(g.kp, e);
    assert -g.kd * 0.0 == 0.0;
  }

  /** A unit at rest answers a rate with a command against it, within its limit. */
  lemma FirstAnswer(g: Pid.Gains, w: real)
    requires g.kp > 0.0 && g.ki >= 0.0 && g.iLimit >= 0.0 && 0.0 < g.outLimit <= 1.0
    ensures var out := Pid.StepOut(g, Pid.AT_REST, Pid.AxisInput(ZERO, Fin(w), 0.0));
            Sign(out) == -Sign(w) && -1.0 <= out <= 1.0
  {
    hide Pid.IntegralStep, Pid.DFilterStep, Pid.Terms;
    var e := 0.0 - w;
    var i := Pid.IntegralStep(g, 0.0, e, Pid.CONTROL_DT_S, false, false);
    FirstIntegral(g, e);
    FirstDerivative(g, w);
    FirstTerms(g, e, i);
  }

  lemma PositiveGains(g: Pid.Gains)
    requires g in {Pid.ROLL_GAINS, Pid.PITCH_GAINS, Pid.YAW_GAINS}
    ensures g.kp > 0.0 && g.ki >= 0.0 && g.iLimit >= 0.0 && 0.0 < g.outLimit <= 1.0
  {
  }

  lemma RollAnswer(x: Pid.RateInput)
    requires x.sp.roll == ZERO && x.gyro.x.Fin?
    ensures var out := Pid.RollOut(Pid.RATE_AT_REST, x); Sign(out) == -Sign(x.gyro.x.v) && -1.0 <= out <= 1.0
  {
    hide Pid.StepOut, Pid.MakeGains;
    PositiveGains(Pid.ROLL_GAINS);
    FirstAnswer(Pid.ROLL_GAINS, x.gyro.x.v);
  }

  lemma PitchAnswer(x: Pid.RateInput)
    requires x.sp.pitch == ZERO && x.gyro.y.Fin?
    ensures var out := Pid.PitchOut(Pid.RATE_AT_REST, x); Sign(out) == Sign(x.gyro.y.v) && -1.0 <= out <= 1.0
  {
    hide Pid.StepOut, Pid.MakeGains;
    PositiveGains(Pid.PITCH_GAINS);
    FirstAnswer(Pid.PITCH_GAINS, -x.gyro.y.v);
  }

  lemma YawAnswer(x: Pid.RateInput)
    requires x.sp.yaw == ZERO && x.gyro.z.Fin?
    ensures var out := Pid.YawOut(Pid.RATE_AT_REST, x); Sign(out) == -Sign(x.gyro.z.v) && -1.0 <= out <= 1.0
  {
    hide Pid.StepOut, Pid.MakeGains;
    PositiveGains(Pid.YAW_GAINS);
    FirstAnswer(Pid.YAW_GAINS, x.gyro.z.v);
  }

  lemma AnswerToSpin(axis: nat, w: real, x: Pid.RateInput) returns (cmd: real)
    requires axis < 3 && x.gyro == SpinOf(axis, w) && x.sp == RateSp(ZERO, ZERO, ZERO, x.sp.throttle)
    ensures Pid.RateDuties(Pid.RATE_AT_REST, x) == AxisDuties(x.sp.throttle, Fin(cmd), axis)
    ensures Clamp(Fin(cmd), -1.0, 1.0) == cmd && Sign(cmd) == if axis == 1 then Sign(w) else -Sign(w)
  {
    hide Duties, Pid.RollOut, Pid.PitchOut, Pid.YawOut;
    RollAnswer(x);
    PitchAnswer(x);
    YawAnswer(x);
    cmd := if axis == 0 then Pid.RollOut(Pid.RATE_AT_REST, x)
           else if axis == 1 then Pid.PitchOut(Pid.RATE_AT_REST, x)
           else Pid.YawOut(Pid.RATE_AT_REST, x);
  }

  /** Negative feedback, across controller, mixer and airframe: from rest and holding zero rate, a spin
      about one axis is met by a torque against it, and by none about the others. */
  lemma FeedbackOpposes(axis: nat, w: real, thr: Float, vbat: Float, om: Quad)
    requires axis < 3 && vbat.Fin? && vbat.v > 0.0
    requires Steady(om, Pid.RateDuties(Pid.RATE_AT_REST,
                          Pid.RateInput(SpinOf(axis, w), RateSp(ZERO, ZERO, ZERO, thr))), vbat)
    ensures var tau := FrdTorque(om);
            && Sign(tau.x) == (if axis == 0 then -Sign(w) else 0)
            && Sign(tau.y) == (if axis == 1 then -Sign(w) else 0)
            && Sign(tau.z) == (if axis == 2 then -Sign(w) else 0)
  {
    hide Steady, FrdTorque, Sign, SpinOf, Pid.RateDuties, AxisDuties, Clamp;
    var x := Pid.RateInput(SpinOf(axis, w), RateSp(ZERO, ZERO, ZERO, thr));
    var cmd := AnswerToSpin(axis, w, x);
    SingleAxisSigns(thr, Fin(cmd), vbat, axis, om);
  }

  /** The proportional term outweighs all that the integral and the derivative can add. */
  predicate Outweighs(g: Pid.Gains, s: Pid.PidState, x: Pid.PidInput) {
    x.Accepted()
    && g.kp * Abs(x.sp.v - x.meas.v) > g.iLimit + g.kd * Abs(Pid.StepState(g, s, x).dFilt)
  }

  lemma TermsSign(g: Pid.Gains, e: real, i: real, dFilt: real)
    requires g.kd >= 0.0 && Abs(i) <= g.iLimit && g.kp * Abs(e) > g.iLimit + g.kd * Abs(dFilt)
    ensures Sign(Pid.Terms(g, e, i, dFilt)) == Sign(e)
  {
    var (p, d) := (g.kp * e, -g.kd * dFilt);
    assert Abs(d) <= g.kd * Abs(dFilt) by {
      NegTimes(g.kd, dFilt);
      NegTimes(dFilt, g.kd);
    }
    NegTimes(e, g.kp);
  }

  lemma UnitSign(g: Pid.Gains, s: Pid.PidState, x: Pid.PidInput)
    requires g.Sane() && g.kd >= 0.0 && g.outLimit > 0.0 && Abs(s.i) <= g.iLimit && Outweighs(g, s, x)
    ensures Sign(Pid.StepOut(g, s, x)) == Sign(x.sp.v - x.meas.v)
  {
    hide Pid.DFilterStep, Pid.IntegralStep, Pid.Terms;
    Pid.AxisLaw(g, s, x);
    var next := Pid.StepState(g, s, x);
    TermsSign(g, x.sp.v - x.meas.v, next.i, next.dFilt);
  }

  lemma GainsInOrder(g: Pid.Gains)
    requires g in {Pid.ROLL_GAINS, Pid.PITCH_GAINS, Pid.YAW_GAINS}
    ensures g.Sane() && g.kd >= 0.0 && 0.0 < g.outLimit <= 1.0 && g.iLimit == Pid.I_LIMIT
  {
    Pid.FlightGains();
  }

  /** The three axis commands of one rate update. */
  function Answer(s: Pid.RateState, x: Pid.RateInput): RVec {
    RVec(Pid.RollOut(s, x), Pid.PitchOut(s, x), Pid.YawOut(s, x))
  }

  lemma AnswerSigns(s: Pid.RateState, x: Pid.RateInput)
    requires Pid.IntegralsClamped(s)
    ensures var (u, v, w) := (Pid.RollInput(s, x), Pid.PitchInput(s, x), Pid.YawInput(s, x));
            && (Outweighs(Pid.ROLL_GAINS, s.roll, u) ==> Sign(Answer(s, x).x) == Sign(u.sp.v - u.meas.v))
            && (Outweighs(Pid.PITCH_GAINS, s.pitch, v) ==> Sign(Answer(s, x).y) == Sign(v.sp.v - v.meas.v))
            && (Outweighs(Pid.YAW_GAINS, s.yaw, w) ==> Sign(Answer(s, x).z) == Sign(w.sp.v - w.meas.v))
  {
    hide Pid.StepOut, Pid.MakeGains, Outweighs, Sign, Pid.RollInput, Pid.PitchInput, Pid.YawInput;
    GainsInOrder(Pid.ROLL_GAINS);
    GainsInOrder(Pid.PITCH_GAINS);
    GainsInOrder(Pid.YAW_GAINS);
    var (u, v, w) := (Pid.RollInput(s, x), Pid.PitchInput(s, x), Pid.YawInput(s, x));
    if Outweighs(Pid.ROLL_GAINS, s.roll, u) { UnitSign(Pid.ROLL_GAINS, s.roll, u); }
    if Outweighs(Pid.PITCH_GAINS, s.pitch, v) { UnitSign(Pid.PITCH_GAINS, s.pitch, v); }
    if Outweighs(Pid.YAW_GAINS, s.yaw, w) { UnitSign(Pid.YAW_GAINS, s.yaw, w); }
  }

  /** Negative feedback in every state a run can reach: where an axis has a rate error that outweighs
      its integral and derivative, and no axis is commanded harder, the settled torque drives that error
      down. Pitch works nose-down positive, the torque nose-up positive. */
  lemma FeedbackSigns(s: Pid.RateState, x: Pid.RateInput, vbat: Float, om: Quad)
    requires Pid.IntegralsClamped(s) && vbat.Fin? && vbat.v > 0.0
    requires Steady(om, Pid.RateDuties(s, x), vbat)
    ensures var (u, v, w) := (Pid.RollInput(s, x), Pid.PitchInput(s, x), Pid.YawInput(s, x));
            var (a, tau) := (Answer(s, x), FrdTorque(om));
            && (Outweighs(Pid.ROLL_GAINS, s.roll, u) && Largest(a.x, a.y, a.z) ==>
                  Sign(tau.x) == Sign(u.sp.v - u.meas.v))
            && (Outweighs(Pid.PITCH_GAINS, s.pitch, v) && Largest(a.y, a.x, a.z) ==>
                  Sign(tau.y) == -Sign(v.sp.v - v.meas.v))
            && (Outweighs(Pid.YAW_GAINS, s.yaw, w) && Largest(a.z, a.x, a.y) ==>
                  Sign(tau.z) == Sign(w.sp.v - w.meas.v))
  {
    hide Steady, FrdTorque, Duties, Outweighs, Sign, Largest, Pid.RollOut, Pid.PitchOut, Pid.YawOut, ShiftOf;
    hide Pid.RollInput, Pid.PitchInput, Pid.YawInput;
    var a := Answer(s, x);
    AnswerSigns(s, x);
    Pid.RateStepLaw(s, x);
    Unclamped(a.x);
    Unclamped(a.y);
    Unclamped(a.z);
    LargestAxisSigns(x.sp.throttle, Fin(a.x), Fin(a.y), Fin(a.z), vbat, om);
  }

  lemma Unclamped(v: real)
    requires Abs(v) <= Pid.OUT_LIMIT
    ensures Clamp(Fin(v), -1.0, 1.0) == v
  {
  }

  /** The figures of the airframe: at nominal voltage a motor at full duty turns at 2500 rad/s, lifts
      0.29375 N and reacts with 0.005 Nm; speed goes with the voltage, and a reading that is no number or
      below zero stops it. */
  lemma AirframeFigures(vbat: Float)
    ensures FullSpeed(Fin(3.85)) == 2500.0 && Load(K_T, 2500.0) == 0.29375 && Load(K_Q, 2500.0) == 0.005
    ensures ARM_LENGTH_M == 0.043 && TAU_M_S == 0.03
    ensures vbat.Fin? && vbat.v >= 0.0 ==> 3.85 * FullSpeed(vbat) == 2500.0 * vbat.v
    ensures !vbat.Fin? || vbat.v < 0.0 ==> FullSpeed(vbat) == 0.0
  {
  }
}
