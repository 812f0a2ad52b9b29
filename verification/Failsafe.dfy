/** The arming state machine and its failsafe latches, one update per control tick. */
module Failsafe {
  import opened Floats
  import opened Ports

  const RC_TIMEOUT_US: int := 100000
  const RC_FRAME_LOST_N: nat := 3
  const ARM_MIN_GOOD_FRAMES: nat := 10
  const IMU_INVALID_DEBOUNCE: nat := 5
  const VBAT_CRIT: Float := Fin(3.3)
  const ARM_THROTTLE_MAX: Float := Fin(0.05)

  /** The bits of the reason mask; the mask itself is the set of bits that are on. */
  datatype Reason = RcTimeout | RcFlag | ImuInvalid | VbatCrit | BootLatch

  /** What the state machine has counted of its inputs. */
  datatype Seen = Seen(lastGoodUs: U64, haveFrame: bool, goodFrames: nat, lostCount: nat, imuBadCount: nat,
                       vbatNan: bool)

  /** What it has latched and decided. */
  datatype Latches = Latches(armed: bool, active: bool, latched: bool, bootLatched: bool, armTestPrev: bool,
                             reason: set<Reason>)
  {
    predicate OutputZero() { !armed || active }
  }

  datatype FsState = FsState(seen: Seen, latch: Latches)

  const UNSEEN := Seen(0, false, 0, 0, 0, false)
  const RESET := FsState(UNSEEN, Latches(false, false, false, false, false, {}))

  datatype FsInput = FsInput(rc: RcSample, imu: ImuSample, vbat: Float, nowUs: U64, calibrated: bool, armTest: bool)

  /** Brown-out and the three watchdogs. */
  predicate FaultReset(resetReason: int) {
    resetReason == 9 || resetReason == 5 || resetReason == 6 || resetReason == 7
  }

  function Booted(resetReason: int): FsState {
    if FaultReset(resetReason) then FsState(UNSEEN, Latches(false, false, true, true, false, {BootLatch})) else RESET
  }

  /** The unsigned 64-bit difference of two time stamps. */
  function Since(now: U64, then_: U64): U64 {
    (now - then_) % 0x1_0000_0000_0000_0000
  }

  predicate Fresh(s: Seen, x: FsInput) {
    x.rc.frameOk && (!s.haveFrame || x.rc.tUs > s.lastGoodUs)
  }

  function LostCount(s: Seen, x: FsInput): nat {
    if Fresh(s, x) then 0
    else if !x.rc.frameLost then s.lostCount
    else if s.lostCount + 1 >= RC_FRAME_LOST_N then RC_FRAME_LOST_N
    else s.lostCount + 1
  }

  function BadCount(count: nat, bad: bool): nat {
    if !bad then 0 else if count < IMU_INVALID_DEBOUNCE then count + 1 else count
  }

  /** The counters after a tick's frame, sample and battery reading. */
  function Observe(s: Seen, x: FsInput): Seen {
    var imu := BadCount(s.imuBadCount, x.imu.Bad());
    var nan := !x.vbat.IsFinite();
    if Fresh(s, x) then Seen(x.rc.tUs, true, s.goodFrames + 1, LostCount(s, x), imu, nan)
    else Seen(s.lastGoodUs, s.haveFrame, 0, LostCount(s, x), imu, nan)
  }

  predicate TimedOut(s: Seen, nowUs: U64) {
    s.haveFrame && Since(nowUs, s.lastGoodUs) >= RC_TIMEOUT_US
  }

  predicate LowBattery(vbat: Float) {
    vbat.IsFinite() && Less(vbat, VBAT_CRIT)
  }

  /** The faults of one tick, on the counters that already include it. */
  function Faults(s: Seen, x: FsInput): (r: set<Reason>)
    ensures BootLatch !in r
  {
    (if TimedOut(s, x.nowUs) then {RcTimeout} else {})
    + (if x.rc.rxFailsafe then {RcFlag} else {})
    + (if s.imuBadCount >= IMU_INVALID_DEBOUNCE then {ImuInvalid} else {})
    + (if LowBattery(x.vbat) then {VbatCrit} else {})
  }

  function Latch(l: Latches, r: set<Reason>): Latches {
    if r != {} then Latches(l.armed, true, true, l.bootLatched, l.armTestPrev, l.reason + r) else l
  }

  predicate ArmWanted(l: Latches, s: Seen, x: FsInput) {
    var imuOk := s.imuBadCount < IMU_INVALID_DEBOUNCE;
    if x.armTest then l.armed && !l.latched
    else if l.armed then x.rc.frameOk && x.rc.armedSwitch && !l.latched && !l.bootLatched && imuOk
    else
      && x.rc.frameOk && x.rc.armedSwitch && x.calibrated && !l.latched && !l.bootLatched
      && s.goodFrames >= ARM_MIN_GOOD_FRAMES && AtMost(x.rc.throttle, ARM_THROTTLE_MAX) && imuOk
  }

  /** An arm-test edge is an explicit arm request: it clears the latches and arms. */
  function Arm(l: Latches, s: Seen, x: FsInput): Latches {
    if Rising(l, x) then Latches(true, false, false, false, true, {})
    else Latches(ArmWanted(l, s, x) && !l.active, l.active, l.latched, l.bootLatched, x.armTest, l.reason)
  }

  predicate Rising(l: Latches, x: FsInput) {
    x.armTest && !l.armTestPrev
  }

  function Step(s: FsState, x: FsInput): FsState {
    var seen := Observe(s.seen, x);
    FsState(seen, Arm(Latch(s.latch, Faults(seen, x)), seen, x))
  }

  class FailsafeFsm {
    var armed: bool
    var active: bool
    var latched: bool
    var bootLatched: bool
    var vbatNan: bool
    var armTestPrev: bool
    var reason: set<Reason>
    var lastGoodUs: U64
    var haveFrame: bool
    var goodFrames: nat
    var lostCount: nat
    var imuBadCount: nat

    function SeenState(): Seen
      reads this
    {
      Seen(lastGoodUs, haveFrame, goodFrames, lostCount, imuBadCount, vbatNan)
    }

    function LatchState(): Latches
      reads this
    {
      Latches(armed, active, latched, bootLatched, armTestPrev, reason)
    }

    function State(): FsState
      reads this
    {
      FsState(SeenState(), LatchState())
    }

    constructor ()
      ensures State() == RESET
    {
      armed, active, latched, bootLatched, vbatNan, armTestPrev := false, false, false, false, false, false;
      reason, lastGoodUs, haveFrame := {}, 0, false;
      goodFrames, lostCount, imuBadCount := 0, 0, 0;
    }

    method Reset()
      modifies this
      ensures State() == RESET
    {
      armed, active, latched, bootLatched, vbatNan, armTestPrev := false, false, false, false, false, false;
      reason, lastGoodUs, haveFrame := {}, 0, false;
      goodFrames, lostCount, imuBadCount := 0, 0, 0;
    }

    method Boot(resetReason: int)
      modifies this
      ensures State() == Booted(resetReason)
    {
      Reset();
      var afterFault := resetReason == 9 || resetReason == 5 || resetReason == 6 || resetReason == 7;
      if afterFault {
        bootLatched := true;
        latched := true;
        reason := reason + {BootLatch};
      }
    }

    method Update(rc: RcSample, imu: ImuSample, vbat: Float, nowUs: U64, calibrated: bool, armTest: bool)
      modifies this
      ensures State() == Step(old(State()), FsInput(rc, imu, vbat, nowUs, calibrated, armTest))
    {
      hide Observe, Faults, Latch, Arm;
      ghost var x := FsInput(rc, imu, vbat, nowUs, calibrated, armTest);
      CountInputs(rc, imu, vbat, x);
      var r := FaultMask(rc, vbat, nowUs, x);
      ApplyFaults(r);
      ArmOrDisarm(rc, calibrated, armTest, x);
    }

    method CountInputs(rc: RcSample, imu: ImuSample, vbat: Float, ghost x: FsInput)
      requires x.rc == rc && x.imu == imu && x.vbat == vbat
      modifies this`goodFrames, this`lastGoodUs, this`haveFrame, this`lostCount, this`imuBadCount, this`vbatNan
      ensures SeenState() == Observe(old(SeenState()), x) && vbatNan == !vbat.IsFinite()
    {
      var isFresh := rc.frameOk && (!haveFrame || rc.tUs > lastGoodUs);
      if isFresh {
        goodFrames := goodFrames + 1;
        lastGoodUs := rc.tUs;
        haveFrame := true;
        lostCount := 0;
      } else {
        goodFrames := 0;
        if rc.frameLost {
          lostCount := lostCount + 1;
          if lostCount >= RC_FRAME_LOST_N { lostCount := RC_FRAME_LOST_N; }
        }
      }
      if imu.Bad() {
        if imuBadCount < IMU_INVALID_DEBOUNCE { imuBadCount := imuBadCount + 1; }
      } else {
        imuBadCount := 0;
      }
      vbatNan := !vbat.IsFinite();
    }

    method FaultMask(rc: RcSample, vbat: Float, nowUs: U64, ghost x: FsInput) returns (r: set<Reason>)
      requires x.rc == rc && x.vbat == vbat && x.nowUs == nowUs && vbatNan == !vbat.IsFinite()
      ensures r == Faults(SeenState(), x)
    {
      var rcTimeout := haveFrame && Since(nowUs, lastGoodUs) >= RC_TIMEOUT_US;
      var imuInvalid := imuBadCount >= IMU_INVALID_DEBOUNCE;
      var vbatCrit := !vbatNan && Less(vbat, VBAT_CRIT);
      r := {};
      if rcTimeout { r := r + {RcTimeout}; }
      if rc.rxFailsafe { r := r + {RcFlag}; }
      if imuInvalid { r := r + {ImuInvalid}; }
      if vbatCrit { r := r + {VbatCrit}; }
    }

    method ApplyFaults(r: set<Reason>)
      modifies this`latched, this`active, this`reason
      ensures LatchState() == Latch(old(LatchState()), r)
    {
      if r != {} {
        latched := true;
        active := true;
        reason := reason + r;
      }
    }

    method ArmOrDisarm(rc: RcSample, calibrated: bool, armTest: bool, ghost x: FsInput)
      requires x.rc == rc && x.calibrated == calibrated && x.armTest == armTest
      modifies this`armed, this`active, this`latched, this`bootLatched, this`reason, this`armTestPrev
      ensures LatchState() == Arm(old(LatchState()), SeenState(), x)
    {
      var imuInvalid := imuBadCount >= IMU_INVALID_DEBOUNCE;
      if armTest {
        if !armTestPrev {
          latched := false;
          bootLatched := false;
          active := false;
          reason := {};
          armed := true;
        } else {
          armed := armed && !latched;
        }
      } else if armed {
        armed := rc.frameOk && rc.armedSwitch && !latched && !bootLatched && !imuInvalid;
      } else {
        armed := rc.frameOk && rc.armedSwitch && calibrated && !latched && !bootLatched
                 && goodFrames >= ARM_MIN_GOOD_FRAMES && AtMost(rc.throttle, ARM_THROTTLE_MAX) && !imuInvalid;
      }
      if active { armed := false; }
      armTestPrev := armTest;
    }
  }

  /** What every reachable state satisfies: the latches, the flags and the reason mask tell one
      story, and an armed craft has nothing latched. */
  predicate Coherent(l: Latches) {
    && (l.bootLatched <==> BootLatch in l.reason)
    && (l.active <==> l.reason - {BootLatch} != {})
    && (l.latched <==> l.reason != {})
    && (l.latched <==> l.active || l.bootLatched)
    && (l.armed ==> !l.latched)
    && (l.OutputZero() <==> !l.armed)
  }

  lemma BootCoherent(resetReason: int)
    ensures Coherent(Booted(resetReason).latch)
  {
    var l := Booted(resetReason).latch;
    assert l.reason - {BootLatch} == {};
  }

  /** One tick keeps the state coherent; without an arm-test edge it only ever adds reasons, and the
      reasons it adds are the tick's faults; an edge clears everything, a live fault included. */
  lemma StepCoherent(s: FsState, x: FsInput)
    requires Coherent(s.latch)
    ensures var (t, r) := (Step(s, x), Faults(Observe(s.seen, x), x));
            && Coherent(t.latch)
            && t.latch.reason == (if Rising(s.latch, x) then {} else s.latch.reason + r)
            && (Rising(s.latch, x) ==> t.latch.armed)
            && (!Rising(s.latch, x) && r != {} ==> !t.latch.armed)
  {
    hide Observe, Faults;
    var r := Faults(Observe(s.seen, x), x);
    var none: set<Reason> := {};
    assert none - {BootLatch} == {};
    if r != {} {
      var q :| q in r;
      assert q in (s.latch.reason + r) - {BootLatch} && q in s.latch.reason + r;
    } else {
      assert s.latch.reason + r == s.latch.reason;
    }
  }

  /** Without an arm-test request a disarmed craft arms only once calibrated. */
  lemma ArmNeedsCalibration(s: FsState, x: FsInput)
    requires !x.armTest
    ensures Step(s, x).latch.armed ==> s.latch.armed || x.calibrated
  {
    hide Observe, Faults;
  }

  /** Of two successive faulty ticks at least one leaves the craft disarmed. */
  lemma TwoFaultyTicks(s: FsState, x: FsInput, y: FsInput)
    requires Coherent(s.latch) && Faults(Observe(s.seen, x), x) != {}
    requires Faults(Observe(Step(s, x).seen, y), y) != {}
    ensures !Step(s, x).latch.armed || !Step(Step(s, x), y).latch.armed
  {
    hide Observe, Faults, ArmWanted;
    StepCoherent(s, x);
    StepCoherent(Step(s, x), y);
  }
}
