/** What the state machine's state means in terms of the inputs it has been given since boot. Nothing
    here mentions a counter, a latch or a flag of the machine except to say what it equals. */
module FailsafeHistory {
  import opened Floats
  import opened Ports
  import opened Failsafe
  import opened InputTerms

  // ---------------------------------------------------------------------------------------------
  // The history side: predicates on the inputs alone. Tick j is ins[j].
  // ---------------------------------------------------------------------------------------------

  ghost predicate FrameAt(ins: seq<FsInput>, j: nat)
    requires j < |ins|
  {
    ins[j].rc.frameOk
  }

  /** Tick j carries a frame stamped later than every earlier frame. */
  ghost predicate FreshAt(ins: seq<FsInput>, j: nat)
    requires j < |ins|
  {
    FrameAt(ins, j) && forall i | 0 <= i < j && FrameAt(ins, i) :: ins[i].rc.tUs < ins[j].rc.tUs
  }

  /** Tick i carries the latest stamp of all frames among the first n ticks. */
  ghost predicate LatestFrame(ins: seq<FsInput>, n: nat, i: nat)
    requires n <= |ins|
  {
    i < n && FrameAt(ins, i) && forall k | 0 <= k < n && FrameAt(ins, k) :: ins[k].rc.tUs <= ins[i].rc.tUs
  }

  /** At tick j the latest frame is at least 100 ms of unsigned clock difference old. */
  ghost predicate TimeoutAt(ins: seq<FsInput>, j: nat)
    requires j < |ins|
  {
    exists i: nat :: LatestFrame(ins, j + 1, i) && Elapsed(ins[j].nowUs, ins[i].rc.tUs) >= 100000
  }

  /** Tick j completes five bad samples in a row. */
  ghost predicate ImuInvalidAt(ins: seq<FsInput>, j: nat)
    requires j < |ins|
  {
    j >= 4 && forall i | j - 4 <= i <= j :: Defective(ins[i].imu)
  }

  ghost predicate FaultAt(ins: seq<FsInput>, j: nat, r: Reason)
    requires j < |ins|
  {
    match r
    case RcTimeout => TimeoutAt(ins, j)
    case RcFlag => ins[j].rc.rxFailsafe
    case ImuInvalid => ImuInvalidAt(ins, j)
    case VbatCrit => BatteryLow(ins[j].vbat)
    case BootLatch => false
  }

  ghost predicate RisingAt(ins: seq<FsInput>, j: nat)
    requires j < |ins|
  {
    ins[j].armTest && (j == 0 || !ins[j - 1].armTest)
  }

  /** No arm-test edge at ticks from .. n. */
  ghost predicate NoEdge(ins: seq<FsInput>, from: nat, n: nat)
    requires n <= |ins|
  {
    forall i | from <= i < n :: !RisingAt(ins, i)
  }

  /** Reason r stands after n ticks: a fault raised it, or the boot did, and no edge came since. */
  ghost predicate Standing(faultBoot: bool, ins: seq<FsInput>, n: nat, r: Reason)
    requires n <= |ins|
  {
    || (r == BootLatch && faultBoot && NoEdge(ins, 0, n))
    || exists j: nat :: j < n && FaultAt(ins, j, r) && NoEdge(ins, j, n)
  }

  /** Some fault, the boot reason aside, stands after n ticks. */
  ghost predicate FaultStands(faultBoot: bool, ins: seq<FsInput>, n: nat)
    requires n <= |ins|
  {
    exists r: Reason :: r != BootLatch && Standing(faultBoot, ins, n, r)
  }

  ghost predicate Quiet(faultBoot: bool, ins: seq<FsInput>, n: nat)
    requires n <= |ins|
  {
    forall r: Reason :: !Standing(faultBoot, ins, n, r)
  }

  /** Ten fresh frames in a row, the last at tick k. */
  ghost predicate TenFresh(ins: seq<FsInput>, k: nat)
    requires k < |ins|
  {
    k >= 9 && forall j | k - 9 <= j <= k :: FreshAt(ins, j)
  }

  /** Tick k arms the craft: an arm-test edge, or the switch under the arming conditions. */
  ghost predicate ArmsAt(faultBoot: bool, ins: seq<FsInput>, k: nat)
    requires k < |ins|
  {
    RisingAt(ins, k)
    || (!ins[k].armTest && FrameAt(ins, k) && ins[k].rc.armedSwitch && ins[k].calibrated
        && ThrottleLow(ins[k].rc.throttle) && TenFresh(ins, k) && Quiet(faultBoot, ins, k + 1))
  }

  /** Tick j lets an armed craft stay armed. */
  ghost predicate KeepsArmed(faultBoot: bool, ins: seq<FsInput>, j: nat)
    requires j < |ins|
  {
    (ins[j].armTest || (FrameAt(ins, j) && ins[j].rc.armedSwitch)) && Quiet(faultBoot, ins, j + 1)
  }

  ghost predicate ArmedBy(faultBoot: bool, ins: seq<FsInput>, n: nat, k: nat)
    requires n <= |ins|
  {
    k < n && ArmsAt(faultBoot, ins, k) && forall j | k < j < n :: KeepsArmed(faultBoot, ins, j)
  }

  ghost predicate ArmedAfter(faultBoot: bool, ins: seq<FsInput>, n: nat)
    requires n <= |ins|
  {
    exists k: nat :: ArmedBy(faultBoot, ins, n, k)
  }

  // ---------------------------------------------------------------------------------------------
  // The machine side
  // ---------------------------------------------------------------------------------------------

  /** The state after the first n ticks since boot. */
  function Run(resetReason: int, ins: seq<FsInput>, n: nat): FsState
    requires n <= |ins|
  {
    if n == 0 then Booted(resetReason) else Step(Run(resetReason, ins, n - 1), ins[n - 1])
  }

  // --- frames --------------------------------------------------------------------------------

  /** Length of the run of fresh frames ending just before tick n. */
  ghost function FreshRun(ins: seq<FsInput>, n: nat): (g: nat)
    requires n <= |ins|
    ensures g <= n
  {
    if n == 0 || !FreshAt(ins, n - 1) then 0 else 1 + FreshRun(ins, n - 1)
  }

  ghost function BadRun(ins: seq<FsInput>, n: nat): (g: nat)
    requires n <= |ins|
    ensures g <= n
  {
    if n == 0 || !Defective(ins[n - 1].imu) then 0 else 1 + BadRun(ins, n - 1)
  }

  ghost predicate FramesTracked(s: Seen, ins: seq<FsInput>, n: nat)
    requires n <= |ins|
  {
    if s.haveFrame then exists i: nat :: LatestFrame(ins, n, i) && ins[i].rc.tUs == s.lastGoodUs
    else forall i | 0 <= i < n :: !FrameAt(ins, i)
  }

  lemma FreshIsFresh(s: Seen, ins: seq<FsInput>, n: nat)
    requires n < |ins| && FramesTracked(s, ins, n)
    ensures Fresh(s, ins[n]) <==> FreshAt(ins, n)
  {
    if s.haveFrame {
      var i: nat :| LatestFrame(ins, n, i) && ins[i].rc.tUs == s.lastGoodUs;
    }
  }

  lemma FramesStep(s: Seen, ins: seq<FsInput>, n: nat)
    requires n < |ins| && FramesTracked(s, ins, n)
    ensures FramesTracked(Observe(s, ins[n]), ins, n + 1)
  {
    FreshIsFresh(s, ins, n);
    if FreshAt(ins, n) {
      assert LatestFrame(ins, n + 1, n);
    } else if s.haveFrame {
      var i: nat :| LatestFrame(ins, n, i) && ins[i].rc.tUs == s.lastGoodUs;
      assert LatestFrame(ins, n + 1, i);
    }
  }

  /** The counters equal the trailing runs of the history, in every reachable state. */
  lemma {:induction false} CountersAreTrailingRuns(resetReason: int, ins: seq<FsInput>, n: nat)
    requires n <= |ins|
    ensures var s := Run(resetReason, ins, n).seen;
            && FramesTracked(s, ins, n)
            && s.goodFrames == FreshRun(ins, n)
            && s.imuBadCount == (if BadRun(ins, n) < 5 then BadRun(ins, n) else 5)
  {
    hide FreshAt, FramesTracked, Fresh, LostCount, Arm, Latch, Faults;
    if n == 0 {
      NoFrames(ins);
    } else {
      CountersAreTrailingRuns(resetReason, ins, n - 1);
      var s := Run(resetReason, ins, n - 1).seen;
      FreshIsFresh(s, ins, n - 1);
      FramesStep(s, ins, n - 1);
    }
  }

  /** Ticks that report a lost frame since the last fresh one. */
  ghost function LostSince(ins: seq<FsInput>, n: nat): nat
    requires n <= |ins|
  {
    if n == 0 || FreshAt(ins, n - 1) then 0
    else LostSince(ins, n - 1) + if ins[n - 1].rc.frameLost then 1 else 0
  }

  /** The lost-frame counter and the battery flag, which steer nothing, still say what they should. */
  lemma {:induction false} BystandersAreHistory(resetReason: int, ins: seq<FsInput>, n: nat)
    requires n <= |ins|
    ensures var s := Run(resetReason, ins, n).seen;
            && s.lostCount == (if LostSince(ins, n) < 3 then LostSince(ins, n) else 3)
            && (s.vbatNan <==> n > 0 && !ins[n - 1].vbat.Fin?)
  {
    hide FreshAt, FramesTracked, Fresh, Arm, Latch, Faults;
    if n > 0 {
      BystandersAreHistory(resetReason, ins, n - 1);
      CountersAreTrailingRuns(resetReason, ins, n - 1);
      FreshIsFresh(Run(resetReason, ins, n - 1).seen, ins, n - 1);
    }
  }

  lemma NoFrames(ins: seq<FsInput>)
    ensures FramesTracked(UNSEEN, ins, 0)
  {
  }

  lemma {:induction false} FreshRunAtLeast(ins: seq<FsInput>, n: nat, m: nat)
    requires n <= |ins|
    ensures FreshRun(ins, n) >= m <==> m <= n && forall j | n - m <= j < n :: FreshAt(ins, j)
  {
    hide FreshAt;
    if n > 0 && m > 0 {
      FreshRunAtLeast(ins, n - 1, m - 1);
    }
  }

  lemma {:induction false} BadRunAtLeast(ins: seq<FsInput>, n: nat, m: nat)
    requires n <= |ins|
    ensures BadRun(ins, n) >= m <==> m <= n && forall j | n - m <= j < n :: Defective(ins[j].imu)
  {
    if n > 0 && m > 0 {
      BadRunAtLeast(ins, n - 1, m - 1);
    }
  }

  // --- faults --------------------------------------------------------------------------------

  lemma LowBatteryIsLow(v: Float)
    ensures LowBattery(v) <==> BatteryLow(v)
  {
  }

  lemma SinceIsElapsed(now: U64, from: U64)
    ensures Since(now, from) == Elapsed(now, from)
  {
  }

  lemma TimedOutIsTimeout(s: Seen, ins: seq<FsInput>, n: nat)
    requires n < |ins| && FramesTracked(s, ins, n + 1)
    ensures TimedOut(s, ins[n].nowUs) <==> TimeoutAt(ins, n)
  {
    hide Since, Elapsed;
    if s.haveFrame {
      SinceIsElapsed(ins[n].nowUs, s.lastGoodUs);
      var i: nat :| LatestFrame(ins, n + 1, i) && ins[i].rc.tUs == s.lastGoodUs;
    }
  }

  /** The faults a tick raises are those of the history. */
  lemma FaultsAreHistory(resetReason: int, ins: seq<FsInput>, n: nat, r: Reason)
    requires n < |ins|
    ensures r in Faults(Run(resetReason, ins, n + 1).seen, ins[n]) <==> FaultAt(ins, n, r)
  {
    hide FramesTracked, TimedOut, TimeoutAt, Observe, Arm, Latch, LowBattery;
    CountersAreTrailingRuns(resetReason, ins, n + 1);
    LowBatteryIsLow(ins[n].vbat);
    TimedOutIsTimeout(Run(resetReason, ins, n + 1).seen, ins, n);
    BadRunAtLeast(ins, n + 1, 5);
  }

  lemma {:induction false} PreviousArmTest(resetReason: int, ins: seq<FsInput>, n: nat)
    requires n < |ins|
    ensures Rising(Run(resetReason, ins, n).latch, ins[n]) <==> RisingAt(ins, n)
  {
    hide Observe, Latch, Faults, ArmWanted;
  }

  lemma {:induction false} RunCoherent(resetReason: int, ins: seq<FsInput>, n: nat)
    requires n <= |ins|
    ensures Coherent(Run(resetReason, ins, n).latch)
  {
    hide Step, Coherent;
    if n == 0 {
      BootCoherent(resetReason);
    } else {
      RunCoherent(resetReason, ins, n - 1);
      StepCoherent(Run(resetReason, ins, n - 1), ins[n - 1]);
    }
  }

  // --- latches -------------------------------------------------------------------------------

  /** One more tick: an edge clears what stands, otherwise the tick's faults join it. */
  lemma StandingStep(faultBoot: bool, ins: seq<FsInput>, n: nat, r: Reason)
    requires n < |ins|
    ensures Standing(faultBoot, ins, n + 1, r)
            <==> !RisingAt(ins, n) && (Standing(faultBoot, ins, n, r) || FaultAt(ins, n, r))
  {
    hide FaultAt, RisingAt;
    if Standing(faultBoot, ins, n + 1, r) {
      if !(r == BootLatch && faultBoot && NoEdge(ins, 0, n + 1)) {
        var j: nat :| j < n + 1 && FaultAt(ins, j, r) && NoEdge(ins, j, n + 1);
        assert NoEdge(ins, j, n);
        assert j == n || (j < n && FaultAt(ins, j, r) && NoEdge(ins, j, n));
      }
    }
    if !RisingAt(ins, n) && FaultAt(ins, n, r) {
      assert NoEdge(ins, n, n + 1);
    }
    if !RisingAt(ins, n) && Standing(faultBoot, ins, n, r) && !(r == BootLatch && faultBoot && NoEdge(ins, 0, n)) {
      var j: nat :| j < n && FaultAt(ins, j, r) && NoEdge(ins, j, n);
      assert NoEdge(ins, j, n + 1);
    }
  }

  /** The reason mask is exactly the set of reasons that stand. */
  lemma {:induction false} ReasonIsHistory(resetReason: int, ins: seq<FsInput>, n: nat, r: Reason)
    requires n <= |ins|
    ensures r in Run(resetReason, ins, n).latch.reason <==> Standing(FaultBoot(resetReason), ins, n, r)
  {
    hide Step, Coherent, Faults, Standing, Rising, RisingAt, FaultAt;
    if n == 0 {
      BootStanding(resetReason, ins, r);
    } else {
      var s := Run(resetReason, ins, n - 1);
      ReasonIsHistory(resetReason, ins, n - 1, r);
      RunCoherent(resetReason, ins, n - 1);
      StepCoherent(s, ins[n - 1]);
      StepSeen(s, ins[n - 1]);
      PreviousArmTest(resetReason, ins, n - 1);
      FaultsAreHistory(resetReason, ins, n - 1, r);
      StandingStep(FaultBoot(resetReason), ins, n - 1, r);
    }
  }

  lemma StepSeen(s: FsState, x: FsInput)
    ensures Step(s, x).seen == Observe(s.seen, x)
  {
  }

  lemma BootStanding(resetReason: int, ins: seq<FsInput>, r: Reason)
    ensures r in Booted(resetReason).latch.reason <==> Standing(FaultBoot(resetReason), ins, 0, r)
  {
  }

  /** The latch refinement: after any run, the machine is latched, active and boot-latched exactly
      when the history says some reason, some fault, or the boot reason still stands. */
  lemma LatchesAreHistory(resetReason: int, ins: seq<FsInput>, n: nat)
    requires n <= |ins|
    ensures var (l, b) := (Run(resetReason, ins, n).latch, FaultBoot(resetReason));
            && (l.latched <==> !Quiet(b, ins, n))
            && (l.active <==> FaultStands(b, ins, n))
            && (l.bootLatched <==> b && NoEdge(ins, 0, n))
  {
    hide Step;
    var (l, b) := (Run(resetReason, ins, n).latch, FaultBoot(resetReason));
    RunCoherent(resetReason, ins, n);
    forall r: Reason
      ensures r in l.reason <==> Standing(b, ins, n, r)
    {
      ReasonIsHistory(resetReason, ins, n, r);
    }
    if l.active {
      var r :| r in l.reason - {BootLatch};
      assert r != BootLatch && Standing(b, ins, n, r);
    }
    if r: Reason :| r != BootLatch && Standing(b, ins, n, r) {
      assert r in l.reason - {BootLatch};
    }
  }

  // --- arming --------------------------------------------------------------------------------

  /** One more tick of the arming history. */
  lemma ArmedAfterStep(faultBoot: bool, ins: seq<FsInput>, n: nat)
    requires n < |ins|
    ensures ArmedAfter(faultBoot, ins, n + 1)
            <==> ArmsAt(faultBoot, ins, n) || (ArmedAfter(faultBoot, ins, n) && KeepsArmed(faultBoot, ins, n))
  {
    hide ArmsAt, KeepsArmed;
    if ArmedAfter(faultBoot, ins, n + 1) {
      var k: nat :| ArmedBy(faultBoot, ins, n + 1, k);
      if k < n {
        assert ArmedBy(faultBoot, ins, n, k);
      }
    }
    if ArmsAt(faultBoot, ins, n) {
      assert ArmedBy(faultBoot, ins, n + 1, n);
    }
    if ArmedAfter(faultBoot, ins, n) && KeepsArmed(faultBoot, ins, n) {
      var k: nat :| ArmedBy(faultBoot, ins, n, k);
      assert ArmedBy(faultBoot, ins, n + 1, k);
    }
  }

  /** The machine's decision at tick n in terms of the latches after that tick. */
  lemma ArmStep(s: FsState, x: FsInput)
    requires Coherent(s.latch)
    ensures var t := Step(s, x);
            t.latch.armed <==>
              || Rising(s.latch, x)
              || (x.armTest && s.latch.armed && !t.latch.latched)
              || (!x.armTest && x.rc.frameOk && x.rc.armedSwitch && !t.latch.latched
                  && (s.latch.armed || (x.calibrated && t.seen.goodFrames >= 10
                                        && ThrottleLow(x.rc.throttle))))
  {
    hide Observe, TimedOut, LowBattery;
  }

  lemma QuietAfterEdge(faultBoot: bool, ins: seq<FsInput>, n: nat)
    requires n < |ins| && RisingAt(ins, n)
    ensures Quiet(faultBoot, ins, n + 1)
  {
    var m := n + 1;
    forall r: Reason
      ensures !Standing(faultBoot, ins, m, r)
    {
      StandingStep(faultBoot, ins, n, r);
    }
  }

  /** The arming refinement: the craft is armed after n ticks exactly when some tick armed it and
      every tick since has kept it armed. */
  lemma {:induction false} ArmedIsHistory(resetReason: int, ins: seq<FsInput>, n: nat)
    requires n <= |ins|
    ensures Run(resetReason, ins, n).latch.armed <==> ArmedAfter(FaultBoot(resetReason), ins, n)
  {
    hide Step, Coherent, Quiet, FreshAt, Rising, RisingAt, FramesTracked, ArmedBy;
    var b := FaultBoot(resetReason);
    if n == 0 {
      NeverArmedAtBoot(b, ins);
    } else {
      var (s, k) := (Run(resetReason, ins, n - 1), n - 1);
      ArmedIsHistory(resetReason, ins, k);
      RunCoherent(resetReason, ins, k);
      ArmStep(s, ins[k]);
      PreviousArmTest(resetReason, ins, k);
      LatchesAreHistory(resetReason, ins, n);
      CountersAreTrailingRuns(resetReason, ins, n);
      FreshRunAtLeast(ins, n, 10);
      ArmedAfterStep(b, ins, k);
      EdgeNeedsArmTest(ins, k);
      if RisingAt(ins, k) {
        QuietAfterEdge(b, ins, k);
      }
    }
  }

  lemma EdgeNeedsArmTest(ins: seq<FsInput>, k: nat)
    requires k < |ins|
    ensures RisingAt(ins, k) ==> ins[k].armTest
  {
  }

  lemma NeverArmedAtBoot(faultBoot: bool, ins: seq<FsInput>)
    ensures !ArmedAfter(faultBoot, ins, 0)
  {
  }

  // ---------------------------------------------------------------------------------------------
  // Consequences
  // ---------------------------------------------------------------------------------------------

  /** Tick k meets the arming conditions, and frame and switch are there from it on. */
  ghost predicate ArmedWindow(ins: seq<FsInput>, n: nat, k: nat)
    requires n <= |ins|
  {
    k < n && TenFresh(ins, k) && ins[k].calibrated && ThrottleLow(ins[k].rc.throttle)
    && forall j | k <= j < n :: FrameAt(ins, j) && ins[j].rc.armedSwitch
  }

  /** Arming history, with the arm-test request never raised: armed after n ticks exactly when the
      boot was not a fault reset, no tick so far was faulty, and some tick k under calibration and
      low throttle completed ten fresh frames with the frame and the switch present ever since. */
  lemma ArmingHistory(resetReason: int, ins: seq<FsInput>, n: nat)
    requires n <= |ins| && forall j | 0 <= j < n :: !ins[j].armTest
    ensures Run(resetReason, ins, n).latch.armed <==>
              && !FaultBoot(resetReason)
              && (forall j, r | 0 <= j < n :: !FaultAt(ins, j, r))
              && exists k: nat :: ArmedWindow(ins, n, k)
  {
    hide Run, FaultAt, TenFresh;
    var b := FaultBoot(resetReason);
    ArmedIsHistory(resetReason, ins, n);
    forall m: nat | m <= n
      ensures Quiet(b, ins, m) <==> !b && forall j, r | 0 <= j < m :: !FaultAt(ins, j, r)
    {
      QuietWithoutEdges(b, ins, m);
    }
    if ArmedAfter(b, ins, n) {
      var k: nat :| ArmedBy(b, ins, n, k);
      assert KeepsArmed(b, ins, n - 1) || k == n - 1;
      assert Quiet(b, ins, n);
      forall j | k <= j < n
        ensures FrameAt(ins, j) && ins[j].rc.armedSwitch
      {
        assert j == k || KeepsArmed(b, ins, j);
      }
      assert ArmedWindow(ins, n, k);
    }
    if !b && (forall j, r | 0 <= j < n :: !FaultAt(ins, j, r)) && exists k: nat :: ArmedWindow(ins, n, k) {
      var k: nat :| ArmedWindow(ins, n, k);
      assert Quiet(b, ins, k + 1);
      assert ArmedBy(b, ins, n, k);
    }
  }

  lemma QuietWithoutEdges(faultBoot: bool, ins: seq<FsInput>, m: nat)
    requires m <= |ins| && forall j | 0 <= j < m :: !ins[j].armTest
    ensures Quiet(faultBoot, ins, m) <==> !faultBoot && forall j, r | 0 <= j < m :: !FaultAt(ins, j, r)
  {
    hide FaultAt;
    assert forall j: nat | j < m :: NoEdge(ins, j, m);
    assert NoEdge(ins, 0, m);
    if Quiet(faultBoot, ins, m) {
      assert !Standing(faultBoot, ins, m, BootLatch);
      forall j, r | 0 <= j < m
        ensures !FaultAt(ins, j, r)
      {
        assert !Standing(faultBoot, ins, m, r);
      }
    }
  }

  /** Ticks stamped by one strictly increasing clock, frames by the tick that delivers them. */
  ghost predicate Clocked(ins: seq<FsInput>) {
    (forall j | 0 <= j < |ins| :: ins[j].rc.tUs == ins[j].nowUs)
    && forall i, j | 0 <= i < j < |ins| :: ins[i].nowUs < ins[j].nowUs
  }

  /** Tick i is the last frame up to and including tick j. */
  ghost predicate LastFrame(ins: seq<FsInput>, i: nat, j: nat)
    requires i <= j < |ins|
  {
    FrameAt(ins, i) && forall k | i < k <= j :: !FrameAt(ins, k)
  }

  /** On one increasing clock every frame is fresh, and the timeout is plain elapsed time since the
      last frame: the unsigned difference never wraps. */
  lemma RcLossTiming(ins: seq<FsInput>, i: nat, j: nat)
    requires Clocked(ins) && i <= j < |ins| && LastFrame(ins, i, j)
    ensures FreshAt(ins, i)
    ensures FaultAt(ins, j, RcTimeout) <==> ins[j].nowUs >= ins[i].nowUs + 100000
  {
    assert LatestFrame(ins, j + 1, i);
    if TimeoutAt(ins, j) {
      var k: nat :| LatestFrame(ins, j + 1, k) && Elapsed(ins[j].nowUs, ins[k].rc.tUs) >= 100000;
      assert ins[i].nowUs <= ins[k].nowUs;
    }
  }

  /** RC-loss latency: a tick sooner than 100 ms after the last frame adds no timeout reason, and the
      first one not sooner latches it and disarms, unless it is an arm-test edge. */
  lemma RcLossLatency(resetReason: int, ins: seq<FsInput>, i: nat, j: nat)
    requires Clocked(ins) && i <= j < |ins| && LastFrame(ins, i, j)
    ensures var (s, t) := (Run(resetReason, ins, j).latch, Run(resetReason, ins, j + 1).latch);
            && (ins[j].nowUs < ins[i].nowUs + 100000 ==> RcTimeout in t.reason ==> RcTimeout in s.reason)
            && (ins[j].nowUs >= ins[i].nowUs + 100000 && !RisingAt(ins, j) ==>
                  RcTimeout in t.reason && t.active && t.latched && !t.armed)
  {
    hide Step, FaultAt, Standing, RisingAt;
    RcLossTiming(ins, i, j);
    ReasonIsHistory(resetReason, ins, j, RcTimeout);
    ReasonIsHistory(resetReason, ins, j + 1, RcTimeout);
    StandingStep(FaultBoot(resetReason), ins, j, RcTimeout);
    RunCoherent(resetReason, ins, j + 1);
    var t := Run(resetReason, ins, j + 1).latch;
    assert RcTimeout in t.reason ==> RcTimeout in t.reason - {BootLatch};
  }
}
