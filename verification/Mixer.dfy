/** Quad-X mixer: motor mixing, desaturation and the final clamp. */
module Mixer {
  import opened Floats
  import opened Ports

  function Clamp(v: Float, lo: real, hi: real): real {
    match v
    case Fin(x) => if x < lo then lo else if x > hi then hi else x
    case _ => 0.0
  }

  function MaxOf(m: seq<real>): real
    requires |m| == 4
  {
    Max(Max(m[0], m[1]), Max(m[2], m[3]))
  }

  function MinOf(m: seq<real>): real
    requires |m| == 4
  {
    Min(Min(m[0], m[1]), Min(m[2], m[3]))
  }

  /** Closed form of the shift: push up by what the lowest channel lacks, otherwise pull down by
      what the highest exceeds one, the low side having the last word. */
  function DesatShift(m: seq<real>): real
    requires |m| == 4
  {
    Max(-MinOf(m), Min(0.0, 1.0 - MaxOf(m)))
  }

  function Shifted(m: seq<real>, s: real): (r: seq<real>) {
    seq(|m|, k requires 0 <= k < |m| => m[k] + s)
  }

  method Desaturate(m: array<real>) returns (shift: real)
    requires m.Length == 4
    modifies m
    ensures shift == DesatShift(old(m[..]))
    ensures m[..] == Shifted(old(m[..]), shift)
  {
    shift := 0.0;
    var hi, lo := Range(m);
    if hi > 1.0 { shift := shift - (hi - 1.0); }
    if lo + shift < 0.0 { shift := shift - (lo + shift); }
    AddToAll(m, shift);
  }

  method Range(m: array<real>) returns (hi: real, lo: real)
    requires m.Length == 4
    ensures hi == MaxOf(m[..]) && lo == MinOf(m[..])
  {
    hi, lo := m[0], m[0];
    for i := 1 to 4
      invariant exists k :: 0 <= k < i && hi == m[k]
      invariant exists k :: 0 <= k < i && lo == m[k]
      invariant forall k | 0 <= k < i :: lo <= m[k] <= hi
    {
      if m[i] > hi { hi := m[i]; }
      if m[i] < lo { lo := m[i]; }
    }
  }

  method AddToAll(m: array<real>, shift: real)
    modifies m
    ensures m[..] == Shifted(old(m[..]), shift)
  {
    for i := 0 to m.Length
      invariant forall k | 0 <= k < i :: m[k] == old(m[k]) + shift
      invariant forall k | i <= k < m.Length :: m[k] == old(m[k])
    {
      m[i] := m[i] + shift;
    }
  }

  /** The sign table of the four motors. */
  function Premix(t: real, r: real, p: real, y: real): (m: seq<real>)
    ensures |m| == 4
  {
    [t - r + p - y, t - r - p + y, t + r + p + y, t + r - p - y]
  }

  function PremixOf(thr: Float, roll: Float, pitch: Float, yaw: Float): (m: seq<real>)
    ensures |m| == 4
  {
    Premix(Clamp(thr, 0.0, 1.0), Clamp(roll, -1.0, 1.0), Clamp(pitch, -1.0, 1.0), Clamp(yaw, -1.0, 1.0))
  }

  function Clipped(m: seq<real>): (r: seq<real>) {
    seq(|m|, k requires 0 <= k < |m| => Clamp(Fin(m[k]), 0.0, 1.0))
  }

  /** The four duties of a command. */
  function Duties(thr: Float, roll: Float, pitch: Float, yaw: Float): (d: seq<real>)
    ensures |d| == 4 && forall k | 0 <= k < 4 :: 0.0 <= d[k] <= 1.0
  {
    var m := PremixOf(thr, roll, pitch, yaw);
    Clipped(Shifted(m, DesatShift(m)))
  }

  function ShiftOf(thr: Float, roll: Float, pitch: Float, yaw: Float): real {
    DesatShift(PremixOf(thr, roll, pitch, yaw))
  }

  function ToPwm(d: seq<real>): PwmCmd
    requires |d| == 4
  {
    [Fin(d[0]), Fin(d[1]), Fin(d[2]), Fin(d[3])]
  }

  method Write(thr: Float, roll: Float, pitch: Float, yaw: Float) returns (shift: real, out: PwmCmd)
    ensures shift == ShiftOf(thr, roll, pitch, yaw)
    ensures out == ToPwm(Duties(thr, roll, pitch, yaw))
  {
    var t, r := Clamp(thr, 0.0, 1.0), Clamp(roll, -1.0, 1.0);
    var p, y := Clamp(pitch, -1.0, 1.0), Clamp(yaw, -1.0, 1.0);
    hide Clamp, DesatShift, Shifted, Clipped;
    var m := new real[4];
    m[0] := t - r + p - y;
    m[1] := t - r - p + y;
    m[2] := t + r + p + y;
    m[3] := t + r - p - y;
    assert m[..] == PremixOf(thr, roll, pitch, yaw);
    hide Premix;
    shift := Desaturate(m);
    out := ClampAll(m);
  }

  /** The final clamp. */
  method ClampAll(m: array<real>) returns (out: PwmCmd)
    requires m.Length == 4
    ensures out == ToPwm(Clipped(m[..]))
  {
    hide Clamp;
    out := MOTORS_OFF;
    for i := 0 to 4
      invariant forall k | 0 <= k < i :: out[k] == Fin(Clamp(Fin(m[k]), 0.0, 1.0))
    {
      out := out[i := Fin(Clamp(Fin(m[i]), 0.0, 1.0))];
    }
  }

  // ---------------------------------------------------------------------------------------------
  // Desaturation law
  // ---------------------------------------------------------------------------------------------

  /** Sum of the two largest magnitudes among three. */
  function TwoLargest(a: real, b: real, c: real): real {
    var (x, y, z) := (Abs(a), Abs(b), Abs(c));
    x + y + z - Min(x, Min(y, z))
  }

  predicate InUnit(m: seq<real>) {
    forall k | 0 <= k < |m| :: 0.0 <= m[k] <= 1.0
  }

  /** The spread of the four channels depends on the axes alone: twice the sum of the two largest. */
  lemma Spread(t: real, r: real, p: real, y: real)
    ensures var m := Premix(t, r, p, y); MaxOf(m) - MinOf(m) == 2.0 * TwoLargest(r, p, y)
  {
  }

  /** The shifted channels fit the unit interval, so the final clamp changes nothing, exactly when
      the two largest axis commands sum to at most one half. */
  lemma FitsIff(t: real, r: real, p: real, y: real)
    ensures var m := Premix(t, r, p, y); var s := Shifted(m, DesatShift(m));
            && (InUnit(s) <==> TwoLargest(r, p, y) <= 0.5)
            && (Clipped(s) == s <==> TwoLargest(r, p, y) <= 0.5)
  {
    var m := Premix(t, r, p, y);
    var s := Shifted(m, DesatShift(m));
    Spread(t, r, p, y);
    var h, l := Extremes(m);
    if TwoLargest(r, p, y) <= 0.5 {
      assert InUnit(s);
    } else {
      assert s[h] > 1.0;
      assert Clipped(s)[h] == 1.0;
    }
  }

  lemma Extremes(m: seq<real>) returns (h: nat, l: nat)
    requires |m| == 4
    ensures h < 4 && l < 4 && m[h] == MaxOf(m) && m[l] == MinOf(m)
    ensures forall k | 0 <= k < 4 :: m[l] <= m[k] <= m[h]
  {
    h := if m[0] == MaxOf(m) then 0 else if m[1] == MaxOf(m) then 1 else if m[2] == MaxOf(m) then 2 else 3;
    l := if m[0] == MinOf(m) then 0 else if m[1] == MinOf(m) then 1 else if m[2] == MinOf(m) then 2 else 3;
  }

  /** When some uniform shift fits at all, the chosen one fits and is the smallest in magnitude. */
  lemma LeastShift(m: seq<real>, s: real)
    requires |m| == 4 && InUnit(Shifted(m, s))
    ensures InUnit(Shifted(m, DesatShift(m))) && Abs(DesatShift(m)) <= Abs(s)
  {
    var h, l := Extremes(m);
    assert Shifted(m, s)[h] <= 1.0 && 0.0 <= Shifted(m, s)[l];
  }

  /** The duties carry the clamped commands: reading the four motors back through the sign table
      returns the collective plus the shift and the three axis commands unchanged. */
  lemma CommandsPreserved(thr: Float, roll: Float, pitch: Float, yaw: Float)
    requires TwoLargest(Clamp(roll, -1.0, 1.0), Clamp(pitch, -1.0, 1.0), Clamp(yaw, -1.0, 1.0)) <= 0.5
    ensures var d := Duties(thr, roll, pitch, yaw);
            && (d[0] + d[1] + d[2] + d[3]) / 4.0 == Clamp(thr, 0.0, 1.0) + ShiftOf(thr, roll, pitch, yaw)
            && (-d[0] - d[1] + d[2] + d[3]) / 4.0 == Clamp(roll, -1.0, 1.0)
            && (d[0] - d[1] + d[2] - d[3]) / 4.0 == Clamp(pitch, -1.0, 1.0)
            && (-d[0] + d[1] + d[2] - d[3]) / 4.0 == Clamp(yaw, -1.0, 1.0)
  {
    FitsIff(Clamp(thr, 0.0, 1.0), Clamp(roll, -1.0, 1.0), Clamp(pitch, -1.0, 1.0), Clamp(yaw, -1.0, 1.0));
  }

  /** Four channels further apart than one, whatever command produced them. */
  lemma SaturatedChannels(m: seq<real>)
    requires |m| == 4 && MaxOf(m) - MinOf(m) > 1.0
    ensures DesatShift(m) == -MinOf(m)
    ensures var d := Clipped(Shifted(m, DesatShift(m)));
            && (forall k | 0 <= k < 4 :: d[k] == Min(1.0, m[k] - MinOf(m)))
            && MinOf(d) == 0.0 && MaxOf(d) == 1.0
  {
    var h, l := Extremes(m);
    var s := Shifted(m, DesatShift(m));
    var d := Clipped(s);
    forall k | 0 <= k < 4
      ensures d[k] == Min(1.0, m[k] - MinOf(m))
    {
      assert s[k] == m[k] - MinOf(m) >= 0.0;
    }
  }

  /** Out of room, the low side wins: the lowest channel lands exactly on zero, no channel is
      clipped from below, and clipping the tops keeps the order of the channels. */
  lemma SaturatedLaw(thr: Float, roll: Float, pitch: Float, yaw: Float)
    requires TwoLargest(Clamp(roll, -1.0, 1.0), Clamp(pitch, -1.0, 1.0), Clamp(yaw, -1.0, 1.0)) > 0.5
    ensures var m := PremixOf(thr, roll, pitch, yaw);
            var d := Duties(thr, roll, pitch, yaw);
            && ShiftOf(thr, roll, pitch, yaw) == -MinOf(m)
            && MinOf(d) == 0.0 && MaxOf(d) == 1.0
            && (forall k | 0 <= k < 4 :: d[k] == Min(1.0, m[k] - MinOf(m)))
            && (forall j, k | 0 <= j < 4 && 0 <= k < 4 && m[j] <= m[k] :: d[j] <= d[k])
  {
    Spread(Clamp(thr, 0.0, 1.0), Clamp(roll, -1.0, 1.0), Clamp(pitch, -1.0, 1.0), Clamp(yaw, -1.0, 1.0));
    SaturatedChannels(PremixOf(thr, roll, pitch, yaw));
  }

  /** What the returned shift tells the caller. Negative: the highest channel exceeded one and comes
      down by no more than its excess. Positive: the lowest channel was pushed up onto zero. Zero:
      every channel already fitted, or the lowest sits on zero while a top is about to be clipped,
      a saturation the shift does not report. */
  lemma ShiftSign(m: seq<real>)
    requires |m| == 4
    ensures DesatShift(m) < 0.0 ==> MaxOf(m) + DesatShift(m) >= 1.0 && MinOf(m) + DesatShift(m) >= 0.0
    ensures DesatShift(m) > 0.0 ==> MinOf(m) < 0.0 && MinOf(m) + DesatShift(m) == 0.0
    ensures DesatShift(m) == 0.0 <==> InUnit(m) || (MinOf(m) == 0.0 && MaxOf(m) > 1.0)
  {
    var h, l := Extremes(m);
  }

  /** A command that is no number counts as zero; any other is cut at the nearer bound. */
  lemma ClampLaw(v: Float, lo: real, hi: real)
    requires lo <= 0.0 <= hi
    ensures !v.Fin? ==> Clamp(v, lo, hi) == 0.0
    ensures v.Fin? && lo <= v.v <= hi ==> Clamp(v, lo, hi) == v.v
    ensures v.Fin? && v.v < lo ==> Clamp(v, lo, hi) == lo
    ensures v.Fin? && v.v > hi ==> Clamp(v, lo, hi) == hi
  {
  }

  /** Motor k of the written command is duty k. */
  lemma MotorOrder(d: seq<real>, k: nat)
    requires |d| == 4 && k < 4
    ensures ToPwm(d)[k] == Fin(d[k])
  {
  }
}
