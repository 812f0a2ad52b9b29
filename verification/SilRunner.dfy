/** The firmware process of the SIL setup: HELLO, then receive, tick, report until the stream ends. */
module SilRunner {
  import opened Floats
  import opened Ports
  import opened HalSil
  import opened ControlLoop
  import opened FlightRuns
  import Estimator
  import Failsafe
  import opened InputTerms
  import History = FailsafeHistory
  import Wire

  const EXIT_CLEAN: int := 0
  const EXIT_PROTO: int := 2
  const EXIT_TIMEOUT: int := 3

  datatype Status = Running | Exited(code: int)

  /** The process between two receives. */
  datatype FwState = FwState(status: Status, link: Link, loop: LoopState, out: SilOut)

  /** The record sent after a tick: motors from the gate, flags and attitude from the modules. */
  function Report(was: SilOut, r: TickResult): SilOut {
    SilOut(MotorsAfter(r.pwm), Attitude3(r.next.est), r.next.fs.latch.armed, r.next.fs.latch.active, r.led,
           r.next.est.att.imuValid, was.tick, r.next.satShift)
  }

  /** What one pass of the loop meets: the outcome of its receive, and whether its send goes out. */
  datatype Exchange = Exchange(r: Received, sendOk: bool)

  function Started(resetReason: int): FwState {
    FwState(Running, NEW_LINK.(seqNo := 1), ControlLoop.Boot(resetReason), NO_OUT)
  }

  function Hello(local: Wire.Hello): Msg {
    Msg(HalSil.Hello, 0, HelloBody(local))
  }

  /** The state after the answer to HELLO: any answer but the matching ACK is a protocol exit. */
  function AfterHello(resetReason: int, local: Wire.Hello, r: Received): FwState {
    var s := Started(resetReason);
    if HelloResult(local, r) == IoOk then s else s.(status := Exited(EXIT_PROTO))
  }

  /** A tick on an accepted state and its report. A report that cannot be sent is a protocol exit. */
  function TickAndReport(u: Setup, armTest: bool, s: FwState, m: Msg, sendOk: bool): (FwState, seq<Msg>)
    requires m.body.StateBody?
  {
    var t := TickAt(u, s.loop, LoopInput(m.body.st, armTest));
    var out := Report(s.out, t);
    (FwState(if sendOk then Running else Exited(EXIT_PROTO), Accepted(s.link, m).(seqNo := s.link.seqNo + 1), t.next,
             out),
     if sendOk then [Msg(FwOut, s.link.seqNo, OutBody(out))] else [])
  }

  /** One pass of the main loop, with the message it puts on the wire, if any. Whether the BYE of a
      clean exit goes out makes no difference to the exit. */
  function Pass(u: Setup, armTest: bool, s: FwState, x: Exchange): (FwState, seq<Msg>) {
    if s.status != Running then (s, [])
    else
      match RecvResult(s.link, x.r)
      case IoClosed =>
        (s.(status := Exited(EXIT_CLEAN), link := s.link.(seqNo := s.link.seqNo + 1)),
         if x.sendOk then [Msg(Bye, s.link.seqNo, NoBody)] else [])
      case IoProto => (s.(status := Exited(EXIT_PROTO)), [])
      case IoTimeout => (s.(status := Exited(EXIT_TIMEOUT)), [])
      case IoOk => TickAndReport(u, armTest, s, x.r.m, x.sendOk)
  }

  /** The loop over the first n exchanges. */
  function Passes(u: Setup, armTest: bool, s: FwState, xs: seq<Exchange>, n: nat): (FwState, seq<Msg>)
    requires n <= |xs|
  {
    if n == 0 then (s, [])
    else
      var (t, sent) := Passes(u, armTest, s, xs, n - 1);
      var (t', more) := Pass(u, armTest, t, xs[n - 1]);
      (t', sent + more)
  }

  /** The process: HELLO and its answer, then the loop. `sent` is everything it puts on the wire. */
  method FirmwareMain(u: Setup, armTest: bool, local: Wire.Hello, helloOk: bool, answer: Received, xs: seq<Exchange>)
    returns (status: Status, sent: seq<Msg>)
    ensures !helloOk ==> status == Exited(EXIT_PROTO) && sent == []
    ensures helloOk ==>
              var (t, more) := Passes(u, armTest, AfterHello(u.resetReason, local, answer), xs, |xs|);
              status == t.status && sent == [Hello(local)] + more
  {
    hide Passes;
    var hal := new SilHal();
    var hello := hal.NextMsg(HalSil.Hello, HelloBody(local));
    if !helloOk { return Exited(EXIT_PROTO), []; }
    if HelloResult(local, answer) != IoOk {
      ExitedStays(u, armTest, AfterHello(u.resetReason, local, answer), xs, |xs|);
      return Exited(EXIT_PROTO), [hello];
    }
    var ctx := new FlightContext(hal, u.cfg, u.atan2, u.resetReason);
    var more;
    status, more := MainLoop(u, armTest, hal, ctx, xs);
    sent := [hello] + more;
  }

  /** Receive, tick, report, until the stream ends, breaks the protocol or takes no more. */
  method MainLoop(u: Setup, armTest: bool, hal: SilHal, ctx: FlightContext, xs: seq<Exchange>)
    returns (status: Status, sent: seq<Msg>)
    requires ctx.Valid() && ctx.hal == hal && ctx.cfg == u.cfg && ctx.est.atan2 == u.atan2
    modifies hal, ctx, ctx.rc, ctx.rc.buf, ctx.est, ctx.fs, ctx.rate
    modifies ctx.rate.rollPid, ctx.rate.pitchPid, ctx.rate.yawPid
    ensures var (t, more) := Passes(u, armTest, old(FwState(Running, hal.LinkState(), ctx.State(), hal.out)), xs, |xs|);
            status == t.status && sent == more
  {
    hide Pass;
    ghost var s := FwState(Running, hal.LinkState(), ctx.State(), hal.out);
    var i := 0;
    status, sent := Running, [];
    while i < |xs| && status == Running
      invariant 0 <= i <= |xs| && ctx.Valid()
      invariant Passes(u, armTest, s, xs, i).1 == sent && Passes(u, armTest, s, xs, i).0.status == status
      invariant status == Running ==>
                  Passes(u, armTest, s, xs, i).0 == FwState(Running, hal.LinkState(), ctx.State(), hal.out)
      decreases |xs| - i
    {
      var more;
      status, more := OnePass(u, armTest, hal, ctx, xs[i]);
      sent := sent + more;
      i := i + 1;
    }
    ExitedFrom(u, armTest, s, xs, i);
  }

  method OnePass(u: Setup, armTest: bool, hal: SilHal, ctx: FlightContext, x: Exchange)
    returns (status: Status, sent: seq<Msg>)
    requires ctx.Valid() && ctx.hal == hal && ctx.cfg == u.cfg && ctx.est.atan2 == u.atan2
    modifies hal, ctx, ctx.rc, ctx.rc.buf, ctx.est, ctx.fs, ctx.rate
    modifies ctx.rate.rollPid, ctx.rate.pitchPid, ctx.rate.yawPid
    ensures ctx.Valid()
    ensures var (t, more) := Pass(u, armTest, old(FwState(Running, hal.LinkState(), ctx.State(), hal.out)), x);
            && sent == more && status == t.status
            && (status == Running ==> t == FwState(Running, hal.LinkState(), ctx.State(), hal.out))
  {
    hide TickAt, Report, RecvResult;
    var io := hal.RecvState(x.r);
    if io == IoClosed {
      var bye := hal.NextMsg(Bye, NoBody);
      return Exited(EXIT_CLEAN), if x.sendOk then [bye] else [];
    }
    if io == IoProto { return Exited(EXIT_PROTO), []; }
    if io == IoTimeout { return Exited(EXIT_TIMEOUT), []; }
    var m := RunTick(u, armTest, hal, ctx);
    if !x.sendOk { return Exited(EXIT_PROTO), []; }
    return Running, [m];
  }

  /** Tick on the accepted state, fill in the status fields, number the report. */
  method RunTick(u: Setup, armTest: bool, hal: SilHal, ctx: FlightContext) returns (m: Msg)
    requires ctx.Valid() && ctx.hal == hal && ctx.cfg == u.cfg && ctx.est.atan2 == u.atan2
    modifies hal`seqNo, hal`out, hal`pwmCalls, ctx, ctx.rc, ctx.rc.buf, ctx.est, ctx.fs, ctx.rate
    modifies ctx.rate.rollPid, ctx.rate.pitchPid, ctx.rate.yawPid
    ensures ctx.Valid()
    ensures var t := TickAt(u, old(ctx.State()), LoopInput(hal.state, armTest));
            && ctx.State() == t.next && hal.out == Report(old(hal.out), t)
            && hal.LinkState() == old(hal.LinkState()).(seqNo := old(hal.seqNo) + 1)
            && m == Msg(FwOut, old(hal.seqNo), OutBody(hal.out))
  {
    hide TickStep, MotorsAfter;
    Tick(ctx, armTest);
    var att := Vec3(Fin(ctx.est.roll), Fin(ctx.est.pitch), Fin(ctx.est.yaw));
    hal.SetStatus(ctx.fs.armed, ctx.fs.active, ctx.est.imuValid, att, ctx.satShift);
    m := hal.NextMsg(FwOut, OutBody(hal.out));
  }

  lemma {:induction false} ExitedStays(u: Setup, armTest: bool, s: FwState, xs: seq<Exchange>, n: nat)
    requires n <= |xs| && s.status != Running
    ensures Passes(u, armTest, s, xs, n) == (s, [])
  {
    if n > 0 {
      ExitedStays(u, armTest, s, xs, n - 1);
      var none: seq<Msg> := [];
      assert none + none == none;
    }
  }

  /** Once exited, the remaining receives change nothing. */
  lemma {:induction false} ExitedFrom(u: Setup, armTest: bool, s: FwState, xs: seq<Exchange>, i: nat)
    requires i <= |xs| && (i < |xs| ==> Passes(u, armTest, s, xs, i).0.status != Running)
    ensures Passes(u, armTest, s, xs, |xs|) == Passes(u, armTest, s, xs, i)
    decreases |xs| - i
  {
    if i < |xs| {
      var (t, sent) := Passes(u, armTest, s, xs, i);
      assert sent + [] == sent;
      ExitedFrom(u, armTest, s, xs, i + 1);
    }
  }

  // ---------------------------------------------------------------------------------------------
  // What the process guarantees whatever it receives
  // ---------------------------------------------------------------------------------------------

  /** The states the loop has ticked on. */
  function Ticked(u: Setup, armTest: bool, s: FwState, rs: seq<Exchange>, n: nat): seq<LoopInput>
    requires n <= |rs|
  {
    if n == 0 then []
    else
      var before, t := Ticked(u, armTest, s, rs, n - 1), Passes(u, armTest, s, rs, n - 1).0;
      if t.status == Running && RecvResult(t.link, rs[n - 1].r) == IoOk then
        before + [LoopInput(rs[n - 1].r.m.body.st, armTest)]
      else before
  }

  /** A report never carries a turning motor unless its own flags say armed, no failsafe and a valid
      IMU, and then every duty lies in [0, 1]. */
  predicate SafeReport(o: SilOut) {
    (o.mot == MOTORS_OFF || (o.armed && !o.failsafe && o.imuValid))
    && (forall k | 0 <= k < 4 :: UnitDuty(o.mot[k]))
    && o.tick == 0
  }

  lemma ReportSafe(u: Setup, s: LoopState, x: LoopInput, was: SilOut)
    requires was.tick == 0
    ensures SafeReport(Report(was, TickAt(u, s, x)))
  {
    hide Failsafe.Step, Estimator.Step, Control, RcOf, FeedRaw, FsInputOf, ImuCtl;
    var r := TickAt(u, s, x);
    var c := Control(u.cfg, RcOf(s.rc, x.st), ImuCtl(s.est, x.st.imu), r.next.est, s.rate);
    GateOpens(c.duties, r.next.fs.latch.armed, r.next.fs.latch.active, r.next.est.att.imuValid);
  }

  /** The gate on the wire: in every run, against any peer, every report sent is safe, and the
      sequence numbers count up by one without a gap. (The tick field is never written.) */
  lemma {:induction false} EveryReportSafe(u: Setup, armTest: bool, rs: seq<Exchange>, n: nat)
    requires n <= |rs|
    ensures var (t, sent) := Passes(u, armTest, Started(u.resetReason), rs, n);
            && t.out.tick == 0 && (t.status == Running ==> t.link.seqNo == 1 + |sent|)
            && forall k | 0 <= k < |sent| ::
                 && sent[k].seqNo == 1 + k
                 && (sent[k].typ == FwOut ==> sent[k].body.OutBody? && SafeReport(sent[k].body.o))
  {
    hide TickStep, SafeReport, Report;
    if n > 0 {
      EveryReportSafe(u, armTest, rs, n - 1);
      var (t, sent) := Passes(u, armTest, Started(u.resetReason), rs, n - 1);
      if t.status == Running && RecvResult(t.link, rs[n - 1].r) == IoOk {
        var x := LoopInput(rs[n - 1].r.m.body.st, armTest);
        ReportSafe(u, t.loop, x, t.out);
        ReportTick(t.out, TickAt(u, t.loop, x));
      }
    }
  }

  lemma ReportTick(was: SilOut, r: TickResult)
    ensures Report(was, r).tick == was.tick
  {
  }

  lemma OneMorePass(u: Setup, armTest: bool, s: FwState, rs: seq<Exchange>, n: nat)
    requires 0 < n <= |rs|
    ensures var (t, sent) := Passes(u, armTest, s, rs, n - 1);
            var (t', more) := Pass(u, armTest, t, rs[n - 1]);
            Passes(u, armTest, s, rs, n) == (t', sent + more)
    ensures var (t, xs) := (Passes(u, armTest, s, rs, n - 1).0, Ticked(u, armTest, s, rs, n - 1));
            Ticked(u, armTest, s, rs, n)
            == if t.status == Running && RecvResult(t.link, rs[n - 1].r) == IoOk then
                 xs + [LoopInput(rs[n - 1].r.m.body.st, armTest)]
               else xs
  {
    hide Pass;
  }

  lemma NoPass(u: Setup, armTest: bool, s: FwState, rs: seq<Exchange>)
    ensures Passes(u, armTest, s, rs, 0) == (s, []) && Ticked(u, armTest, s, rs, 0) == []
  {
  }

  /** What a pass does to the bookkeeping: a state is taken only if newer than the last, and then is the
      last; nothing else moves it, nor the loop. */
  lemma PassLink(u: Setup, armTest: bool, s: FwState, x: Exchange)
    ensures var (t, l) := (Pass(u, armTest, s, x).0, s.link);
            if s.status == Running && RecvResult(l, x.r) == IoOk then
              x.r.Data? && x.r.m.body.StateBody? &&
              var m := x.r.m;
              && (l.haveState ==> l.lastStateSeq < m.seqNo && l.lastStateUs < m.body.st.tUs)
              && t.link.haveState && t.link.lastStateSeq == m.seqNo && t.link.lastStateUs == m.body.st.tUs
              && t.loop == TickAt(u, s.loop, LoopInput(m.body.st, armTest)).next
            else
              && t.link.haveState == l.haveState && t.link.lastStateSeq == l.lastStateSeq
              && t.link.lastStateUs == l.lastStateUs && t.loop == s.loop
  {
    hide TickAt, Report;
  }

  /** The replay guard at work: whatever a peer sends, the states that reach the loop carry strictly
      increasing clocks, and the loop's state is the run over exactly those states. */
  lemma {:induction false} AcceptedStatesMoveForward(u: Setup, armTest: bool, rs: seq<Exchange>, n: nat)
    requires n <= |rs|
    ensures var (t, xs) := (Passes(u, armTest, Started(u.resetReason), rs, n).0,
                            Ticked(u, armTest, Started(u.resetReason), rs, n));
            && ForwardClock(xs) && t.loop == Run(u, xs, |xs|)
            && (t.link.haveState <==> xs != [])
            && (xs != [] ==> t.link.lastStateUs == xs[|xs| - 1].st.tUs)
  {
    hide TickAt, Report, Run, ForwardClock, Pass, Passes, Ticked, RecvResult;
    if n == 0 {
      NoPass(u, armTest, Started(u.resetReason), rs);
      RunZero(u, []);
      NoInputsForward();
    } else {
      AcceptedStatesMoveForward(u, armTest, rs, n - 1);
      OneMorePass(u, armTest, Started(u.resetReason), rs, n);
      PassLink(u, armTest, Passes(u, armTest, Started(u.resetReason), rs, n - 1).0, rs[n - 1]);
      var s := Started(u.resetReason);
      var (t, xs) := (Passes(u, armTest, s, rs, n - 1).0, Ticked(u, armTest, s, rs, n - 1));
      if t.status == Running && RecvResult(t.link, rs[n - 1].r) == IoOk {
        var x := LoopInput(rs[n - 1].r.m.body.st, armTest);
        RunSnoc(u, xs, x);
        ForwardSnoc(xs, x);
      }
    }
  }

  lemma NoInputsForward()
    ensures ForwardClock([])
  {
  }

  lemma ForwardSnoc(xs: seq<LoopInput>, x: LoopInput)
    requires ForwardClock(xs) && (xs != [] ==> xs[|xs| - 1].st.tUs < x.st.tUs)
    ensures ForwardClock(xs + [x])
  {
    var ys := xs + [x];
    forall i, j | 0 <= i < j < |ys|
      ensures ys[i].st.tUs < ys[j].st.tUs
    {
      assert i < |xs| - 1 ==> xs[i].st.tUs < xs[|xs| - 1].st.tUs;
    }
  }

  lemma {:induction false} RunPrefix(u: Setup, xs: seq<LoopInput>, ys: seq<LoopInput>, n: nat)
    requires n <= |xs| && n <= |ys| && xs[..n] == ys[..n]
    ensures Run(u, xs, n) == Run(u, ys, n)
  {
    hide TickAt;
    if n > 0 {
      assert xs[..n - 1] == xs[..n][..n - 1] && ys[..n - 1] == ys[..n][..n - 1];
      RunPrefix(u, xs, ys, n - 1);
      assert xs[n - 1] == xs[..n][n - 1] && ys[n - 1] == ys[..n][n - 1];
    }
  }

  lemma RunSnoc(u: Setup, xs: seq<LoopInput>, x: LoopInput)
    ensures Run(u, xs + [x], |xs| + 1) == TickAt(u, Run(u, xs, |xs|), x).next
  {
    hide TickAt;
    assert (xs + [x])[..|xs|] == xs[..|xs|];
    RunPrefix(u, xs + [x], xs, |xs|);
  }

  /** With what each outcome of a receive leaves the process: cleanly at the end of the stream or at BYE,
      with a timeout where nothing came in time, with a protocol exit otherwise, unless a STATE that is newer
      in number and clock was taken and its report sent. */
  lemma ExitCodes(u: Setup, armTest: bool, s: FwState, x: Exchange)
    requires s.status == Running
    ensures var (t, status) := (s.link, Pass(u, armTest, s, x).0.status);
            match x.r
            case Eof => status == Exited(0)
            case NothingInTime => status == Exited(3)
            case Corrupt => status == Exited(2)
            case Data(m) =>
              if m.typ == Bye then status == Exited(0)
              else if m.typ == State && m.body.StateBody?
                      && (t.haveState ==> t.lastStateSeq < m.seqNo && t.lastStateUs < m.body.st.tUs) then
                status == if x.sendOk then Running else Exited(2)
              else status == Exited(2)
  {
  }

  /** The sequence numbers of the states the loop has ticked on. */
  function TickedNumbers(u: Setup, armTest: bool, s: FwState, rs: seq<Exchange>, n: nat): seq<nat>
    requires n <= |rs|
  {
    if n == 0 then []
    else
      var before, t := TickedNumbers(u, armTest, s, rs, n - 1), Passes(u, armTest, s, rs, n - 1).0;
      if t.status == Running && RecvResult(t.link, rs[n - 1].r) == IoOk then before + [rs[n - 1].r.m.seqNo] else before
  }

  /** Replay is refused by number as well as by clock: whatever a peer sends, the states that reach the loop
      carry strictly increasing sequence numbers. */
  lemma {:induction false} AcceptedNumbersIncrease(u: Setup, armTest: bool, rs: seq<Exchange>, n: nat)
    requires n <= |rs|
    ensures var (t, ks) := (Passes(u, armTest, Started(u.resetReason), rs, n).0,
                            TickedNumbers(u, armTest, Started(u.resetReason), rs, n));
            && |ks| == |Ticked(u, armTest, Started(u.resetReason), rs, n)|
            && (forall i, j | 0 <= i < j < |ks| :: ks[i] < ks[j])
            && (t.link.haveState <==> ks != []) && (ks != [] ==> t.link.lastStateSeq == ks[|ks| - 1])
  {
    hide TickAt, Report, Pass, Passes, Ticked, RecvResult;
    if n == 0 {
      NoPass(u, armTest, Started(u.resetReason), rs);
    } else {
      AcceptedNumbersIncrease(u, armTest, rs, n - 1);
      OneMorePass(u, armTest, Started(u.resetReason), rs, n);
      PassLink(u, armTest, Passes(u, armTest, Started(u.resetReason), rs, n - 1).0, rs[n - 1]);
      var ks := TickedNumbers(u, armTest, Started(u.resetReason), rs, n - 1);
      var all := TickedNumbers(u, armTest, Started(u.resetReason), rs, n);
      forall i, j | 0 <= i < j < |all|
        ensures all[i] < all[j]
      {
        assert i < |ks| - 1 ==> ks[i] < ks[|ks| - 1];
      }
    }
  }

  // ---------------------------------------------------------------------------------------------
  // Every field of every report
  // ---------------------------------------------------------------------------------------------

  /** o is the report of tick k of the loop's run over xs, field by field. */
  predicate ReportOf(u: Setup, xs: seq<LoopInput>, k: nat, o: SilOut)
    requires k < |xs|
  {
    var s := Run(u, xs, k + 1);
    && o.mot == MotorsAfter(PwmAt(u, xs, k))
    && o.attitude == Vec3(Fin(s.est.att.roll), Fin(s.est.att.pitch), Fin(s.est.att.yaw))
    && o.armed == s.fs.latch.armed && o.failsafe == s.fs.latch.active && o.imuValid == s.est.att.imuValid
    && o.ledMode == LedOf(s.fs, s.est) && o.satShift == s.satShift && o.tick == 0
  }

  lemma ReportIsReportOf(u: Setup, xs: seq<LoopInput>, x: LoopInput, was: SilOut)
    requires was.tick == 0
    ensures ReportOf(u, xs + [x], |xs|, Report(was, TickAt(u, Run(u, xs, |xs|), x)))
  {
    hide Failsafe.Step, Estimator.Step, Control, RcOf, FeedRaw, FsInputOf, ImuCtl, Gate, LedOf, MotorsAfter, Run;
    RunSnoc(u, xs, x);
    RunPrefix(u, xs + [x], xs, |xs|);
  }

  lemma ReportStands(u: Setup, xs: seq<LoopInput>, x: LoopInput, k: nat, o: SilOut)
    requires k < |xs| && ReportOf(u, xs, k, o)
    ensures ReportOf(u, xs + [x], k, o)
  {
    hide TickAt, MotorsAfter, LedOf, Run;
    RunPrefix(u, xs + [x], xs, k + 1);
    RunPrefix(u, xs + [x], xs, k);
  }

  /** What a pass sends: after a tick its report, if the send succeeds; otherwise nothing but a BYE. */
  lemma PassSends(u: Setup, armTest: bool, s: FwState, x: Exchange)
    ensures var (t, sent) := Pass(u, armTest, s, x);
            if s.status == Running && RecvResult(s.link, x.r) == IoOk then
              && x.r.Data? && x.r.m.body.StateBody?
              && var o := Report(s.out, TickAt(u, s.loop, LoopInput(x.r.m.body.st, armTest)));
                 sent == (if x.sendOk then [Msg(FwOut, s.link.seqNo, OutBody(o))] else [])
                 && (t.status == Running <==> x.sendOk)
            else (sent == [] || (|sent| == 1 && sent[0].typ == Bye)) && t.status != Running
  {
    hide TickAt, Report;
  }

  /** Report k that goes out is the report of tick k, whatever the peer sends. */
  lemma {:induction false} EveryReportOf(u: Setup, armTest: bool, rs: seq<Exchange>, n: nat)
    requires n <= |rs|
    ensures var (t, sent) := Passes(u, armTest, Started(u.resetReason), rs, n);
            var xs := Ticked(u, armTest, Started(u.resetReason), rs, n);
            && (t.status == Running ==> |sent| == |xs|)
            && forall k | 0 <= k < |sent| && sent[k].typ == FwOut ::
                 k < |xs| && sent[k].body.OutBody? && ReportOf(u, xs, k, sent[k].body.o)
  {
    hide TickAt, Report, ReportOf, Run, Pass, Passes, Ticked, RecvResult, SafeReport, ForwardClock;
    if n == 0 {
      NoPass(u, armTest, Started(u.resetReason), rs);
    } else {
      EveryReportOf(u, armTest, rs, n - 1);
      OneMorePass(u, armTest, Started(u.resetReason), rs, n);
      EveryReportSafe(u, armTest, rs, n - 1);
      AcceptedStatesMoveForward(u, armTest, rs, n - 1);
      var s := Started(u.resetReason);
      var (t, sent) := Passes(u, armTest, s, rs, n - 1);
      var xs := Ticked(u, armTest, s, rs, n - 1);
      PassSends(u, armTest, t, rs[n - 1]);
      if t.status == Running && RecvResult(t.link, rs[n - 1].r) == IoOk {
        var x := LoopInput(rs[n - 1].r.m.body.st, armTest);
        ReportIsReportOf(u, xs, x, t.out);
        forall k | 0 <= k < |sent| && sent[k].typ == FwOut
          ensures ReportOf(u, xs + [x], k, sent[k].body.o)
        {
          ReportStands(u, xs, x, k, sent[k].body.o);
        }
      }
    }
  }

  /** What the fields of a report mean in terms of the inputs up to its tick: armed and failsafe by the
      history, the IMU flag by the bad samples over the armed ticks, the attitude of the estimator's run, and
      motor k the k-th duty wherever the three flags allow it and zero elsewhere. */
  lemma ReportMeans(u: Setup, xs: seq<LoopInput>, k: nat, o: SilOut)
    requires k < |xs| && ReportOf(u, xs, k, o)
    ensures var (b, ins, calls) := (FaultBoot(u.resetReason), FsInputs(u, xs), EstCalls(u, xs, k + 1));
            && (o.armed <==> History.ArmedAfter(b, ins, k + 1))
            && (o.failsafe <==> History.FaultStands(b, ins, k + 1))
            && (o.imuValid <==> Estimator.TrailingRun(Estimator.BadFlags(calls)) < 5)
            && o.attitude == AttitudeOf(Estimator.Run(calls, u.atan2))
    ensures var (s, t, st) := (Run(u, xs, k), Run(u, xs, k + 1), xs[k].st);
            var c := Control(u.cfg, RcOf(s.rc, st), SampleAt(u, xs, k), t.est, s.rate);
            && o.satShift == c.shift
            && forall i | 0 <= i < 4 :: o.mot[i] == if o.armed && o.imuValid then Fin(c.duties[i]) else Fin(0.0)
    ensures var (b, ins) := (FaultBoot(u.resetReason), FsInputs(u, xs));
            && (o.ledMode == LedError <==> b && History.NoEdge(ins, 0, k + 1))
            && (o.ledMode == LedArmed <==> o.armed)
            && (o.ledMode == LedFailsafe <==> o.failsafe && !(b && History.NoEdge(ins, 0, k + 1)))
            && (o.ledMode == LedCalib ==> !o.armed && !o.failsafe && !Run(u, xs, k + 1).est.Calibrated())
            && (o.ledMode == LedBoot ==> !o.armed && !o.failsafe && Run(u, xs, k + 1).est.Calibrated())
  {
    hide Run, FsInputs, EstCalls, Control, Gate, History.ArmedAfter, History.FaultStands, History.NoEdge, History.Run,
         Estimator.Run, Estimator.BadFlags;
    SafetyProjects(u, xs, k + 1);
    History.ArmedIsHistory(u.resetReason, FsInputs(u, xs), k + 1);
    History.LatchesAreHistory(u.resetReason, FsInputs(u, xs), k + 1);
    History.RunCoherent(u.resetReason, FsInputs(u, xs), k + 1);
    EstimatorProjects(u, xs, k + 1);
    Estimator.DebounceIsTrailingRun(EstCalls(u, xs, k + 1), u.atan2);
    TickControl(u, xs, k);
  }

  function AttitudeOf(e: Estimator.EstState): Vec3 {
    Vec3(Fin(e.att.roll), Fin(e.att.pitch), Fin(e.att.yaw))
  }

  /** The corrected sample of tick k. */
  function SampleAt(u: Setup, xs: seq<LoopInput>, k: nat): ImuSample
    requires k < |xs|
  {
    xs[k].st.imu.(gyro := RateInputs(u, xs, k + 1)[k].gyro)
  }

  lemma TickControl(u: Setup, xs: seq<LoopInput>, k: nat)
    requires k < |xs|
    ensures var (s, t, st) := (Run(u, xs, k), Run(u, xs, k + 1), xs[k].st);
            var c := Control(u.cfg, RcOf(s.rc, st), SampleAt(u, xs, k), t.est, s.rate);
            && t.satShift == c.shift
            && forall i | 0 <= i < 4 ::
                 MotorsAfter(PwmAt(u, xs, k))[i]
                 == if t.fs.latch.armed && !t.fs.latch.active && t.est.att.imuValid then Fin(c.duties[i]) else Fin(0.0)
  {
    hide Failsafe.Step, Estimator.Step, Control, RcOf, FeedRaw, FsInputOf;
    var (s, t, st) := (Run(u, xs, k), Run(u, xs, k + 1), xs[k].st);
    var c := Control(u.cfg, RcOf(s.rc, st), SampleAt(u, xs, k), t.est, s.rate);
    GateOpens(c.duties, t.fs.latch.armed, t.fs.latch.active, t.est.att.imuValid);
  }

  /** HELLO is answered well only by an ACK with the same period and sizes; anything else is a protocol exit
      before the first tick. */
  lemma HelloExit(resetReason: int, local: Wire.Hello, r: Received)
    ensures AfterHello(resetReason, local, r).status
            == if r.Data? && r.m.typ == Ack && r.m.body == HelloBody(local) then Running else Exited(2)
  {
  }
}
