/** The plant and the firmware as two processes joined by two reliable FIFO channels. The plant
    serves HELLO, then alternates STATE and FW_OUT, then says BYE. */
module Lockstep {
  import opened Ports
  import opened HalSil
  import opened ControlLoop
  import opened FlightRuns
  import opened SilRunner
  import Wire

  const EXIT_NUMERICAL: int := 4

  /** One co-simulation. The plant's dynamics are a function of the reports it has received; `breaks`
      says that they turn non-finite. `sense` yields the STATE record and `ship` the FW_OUT record as they
      stand in their messages, every number rounded to the binary32 field that carries it. */
  datatype Scene = Scene(ticks: nat, plantHello: Wire.Hello, fwHello: Wire.Hello, u: Setup, armTest: bool,
                         sense: seq<SilOut> -> StateRc, ship: SilOut -> SilOut, breaks: seq<SilOut> -> bool)

  /** At least one tick, and no more than the 32-bit sequence numbers can count. */
  predicate ValidScene(c: Scene) {
    1 <= c.ticks < 0x1_0000_0000
  }

  datatype PlantPhase = AwaitHello | ToSend | AwaitOut | PlantDone(code: int)

  /** `outs` are the reports received; their number is the tick the plant is at. */
  datatype Plant = Plant(phase: PlantPhase, outs: seq<SilOut>, lastSeq: int, duty: PwmCmd)

  datatype FwPhase = Unconnected | AwaitAck | Looping

  datatype Fw = Fw(phase: FwPhase, s: FwState)

  /** up carries firmware to plant, down plant to firmware. */
  datatype Sys = Sys(plant: Plant, fw: Fw, up: seq<Msg>, down: seq<Msg>)

  function Start(c: Scene): Sys {
    Sys(Plant(AwaitHello, [], -1, MOTORS_OFF), Fw(Unconnected, Started(c.u.resetReason)), [], [])
  }

  /** The STATE of tick k: what the plant senses, stamped with its own clock. */
  function StateMsg(c: Scene, outs: seq<SilOut>): Msg
    requires ValidScene(c) && |outs| <= c.ticks
  {
    Msg(State, |outs|, StateBody(c.sense(outs).(tUs := 1000 * |outs|)))
  }

  predicate Closed(p: Plant) {
    p.phase.PlantDone?
  }

  function AckMsg(c: Scene): Msg {
    Msg(Ack, 0, HelloBody(c.plantHello))
  }

  const BYE := Msg(Bye, 0, NoBody)

  // --- the two processes ---------------------------------------------------------------------

  /** What the plant does at the top of a tick: sense and send, or say BYE after the last one. */
  function PlantSays(c: Scene, p: Plant): (Plant, seq<Msg>)
    requires ValidScene(c)
  {
    if |p.outs| < c.ticks then (p.(phase := AwaitOut), [StateMsg(c, p.outs)])
    else (p.(phase := PlantDone(EXIT_CLEAN)), [BYE])
  }

  /** The plant's handling of HELLO: an answer in every case but an unreadable message, and agreement
      only on equal period and sizes. */
  function PlantGreets(c: Scene, p: Plant, r: Received): (Plant, seq<Msg>) {
    if !r.Data? || r.m.typ != HalSil.Hello || !r.m.body.HelloBody? then (p.(phase := PlantDone(EXIT_PROTO)), [])
    else if r.m.body.hello != c.plantHello then (p.(phase := PlantDone(EXIT_PROTO)), [AckMsg(c)])
    else (p.(phase := ToSend), [AckMsg(c)])
  }

  /** The plant's handling of what it receives during a tick. The end of the stream is tolerated during
      the last tick only; a firmware that says BYE ends the run. */
  function PlantTakes(c: Scene, p: Plant, r: Received): (Plant, seq<Msg>) {
    match r
    case NothingInTime => (p.(phase := PlantDone(EXIT_TIMEOUT)), [])
    case Corrupt => (p.(phase := PlantDone(EXIT_PROTO)), [])
    case Eof =>
      if |p.outs| + 1 >= c.ticks then (p.(phase := PlantDone(EXIT_CLEAN)), [BYE])
      else (p.(phase := PlantDone(EXIT_PROTO)), [])
    case Data(m) =>
      if m.typ == Bye then (p.(phase := PlantDone(EXIT_CLEAN)), [BYE])
      else if m.typ != FwOut || !m.body.OutBody? || m.seqNo <= p.lastSeq then (p.(phase := PlantDone(EXIT_PROTO)), [])
      else
        var outs := p.outs + [m.body.o];
        (Plant(if c.breaks(outs) then PlantDone(EXIT_NUMERICAL) else ToSend, outs, m.seqNo, m.body.o.mot), [])
  }

  function PlantHears(c: Scene, p: Plant, r: Received): (Plant, seq<Msg>) {
    if p.phase == AwaitHello then PlantGreets(c, p, r) else PlantTakes(c, p, r)
  }

  function FwSays(c: Scene, f: Fw): (Fw, seq<Msg>) {
    (f.(phase := AwaitAck), [SilRunner.Hello(c.fwHello)])
  }

  /** The firmware's handling of a receive: the answer to HELLO, or one pass of its loop. */
  function FwHears(c: Scene, f: Fw, x: Exchange): (Fw, seq<Msg>) {
    if f.phase == AwaitAck then (Fw(Looping, AfterHello(c.u.resetReason, c.fwHello, x.r)), [])
    else
      var (next, sent) := Pass(c.u, c.armTest, f.s, x);
      (Fw(Looping, next), Shipped(c, sent))
  }

  /** Messages as they go out. */
  function Shipped(c: Scene, ms: seq<Msg>): seq<Msg> {
    if ms == [] then []
    else
      var m := ms[0];
      [if m.body.OutBody? then m.(body := OutBody(c.ship(m.body.o))) else m] + Shipped(c, ms[1..])
  }

  predicate PlantListens(p: Plant) {
    p.phase in {AwaitHello, AwaitOut}
  }

  predicate FwListens(f: Fw) {
    f.phase == AwaitAck || (f.phase == Looping && f.s.status == Running)
  }

  predicate FwGone(f: Fw) {
    f.phase == Looping && f.s.status != Running
  }

  // --- the steps -----------------------------------------------------------------------------

  /** The head of a channel or, once its sender has gone, the end of the stream. */
  function Head(ms: seq<Msg>): Received {
    if ms != [] then Data(ms[0]) else Eof
  }

  function Rest<T>(ms: seq<T>): seq<T> {
    if ms != [] then ms[1..] else []
  }

  predicate PlantSends(c: Scene, s: Sys, t: Sys)
    requires ValidScene(c)
  {
    s.plant.phase == ToSend
    && var (p, sent) := PlantSays(c, s.plant);
       t == Sys(p, s.fw, s.up, s.down + sent)
  }

  predicate PlantReceives(c: Scene, s: Sys, t: Sys) {
    PlantListens(s.plant) && (s.up != [] || FwGone(s.fw))
    && var (p, sent) := PlantHears(c, s.plant, Head(s.up));
       t == Sys(p, s.fw, Rest(s.up), s.down + sent)
  }

  predicate FwConnects(c: Scene, s: Sys, t: Sys) {
    s.fw.phase == Unconnected
    && var (f, sent) := FwSays(c, s.fw);
       t == Sys(s.plant, f, s.up + sent, s.down)
  }

  /** A send to a plant that has closed fails. */
  predicate FwReceives(c: Scene, s: Sys, t: Sys) {
    FwListens(s.fw) && (s.down != [] || Closed(s.plant))
    && var (f, sent) := FwHears(c, s.fw, Exchange(Head(s.down), !Closed(s.plant)));
       t == Sys(s.plant, f, s.up + sent, Rest(s.down))
  }

  predicate Next(c: Scene, s: Sys, t: Sys)
    requires ValidScene(c)
  {
    PlantSends(c, s, t) || PlantReceives(c, s, t) || FwConnects(c, s, t) || FwReceives(c, s, t)
  }

  // ---------------------------------------------------------------------------------------------
  // The synchronous reference
  // ---------------------------------------------------------------------------------------------

  /** A co-simulation without processes or messages: sense, tick, report, k times. */
  datatype Sync = Sync(ins: seq<LoopInput>, loop: LoopState, last: SilOut, outs: seq<SilOut>)

  function CoSim(c: Scene, k: nat): (y: Sync)
    requires ValidScene(c) && k <= c.ticks
    ensures |y.ins| == k && |y.outs| == k
  {
    if k == 0 then Sync([], ControlLoop.Boot(c.u.resetReason), NO_OUT, [])
    else
      var y := CoSim(c, k - 1);
      var x := LoopInput(StateMsg(c, y.outs).body.st, c.armTest);
      var t := TickAt(c.u, y.loop, x);
      var report := Report(y.last, t);
      Sync(y.ins + [x], t.next, report, y.outs + [c.ship(report)])
  }

  function LastOut(outs: seq<SilOut>): SilOut {
    if outs == [] then NO_OUT else outs[|outs| - 1]
  }

  /** The firmware after k exchanges. */
  function FwAt(c: Scene, k: nat): FwState
    requires ValidScene(c) && k <= c.ticks
  {
    var y := CoSim(c, k);
    var last: nat := if k == 0 then 0 else k - 1;
    FwState(Running, Link(k + 1, last, 1000 * last, k > 0), y.loop, y.last)
  }

  function OutMsg(c: Scene, k: nat): Msg
    requires ValidScene(c) && k < c.ticks
  {
    Msg(FwOut, k + 1, OutBody(LastOut(CoSim(c, k + 1).outs)))
  }

  /** The plant has received k reports; before the first one its last sequence number is -1. */
  predicate PlantIs(c: Scene, p: Plant, phase: PlantPhase, k: nat)
    requires ValidScene(c)
  {
    k <= c.ticks && p.phase == phase && p.outs == CoSim(c, k).outs
    && p.lastSeq == (if k == 0 then -1 else k) && p.duty == LastOut(p.outs).mot
  }

  /** Every reachable state is one of these. */
  datatype Situation =
    | Idle
    | HelloSent
    | AckSent(stateSent: bool)
    | Rejected
    | Turn(k: nat)
    | StateSent(k: nat)
    | OutSent(k: nat)
    | Over(k: nat, code: int, byeSent: bool)
    | Finished(k: nat, code: int)
    | BothRejected

  predicate FwIs(f: Fw, phase: FwPhase, s: FwState) {
    f == Fw(phase, s)
  }

  ghost predicate In(c: Scene, s: Sys, w: Situation)
    requires ValidScene(c)
  {
    var boot := Started(c.u.resetReason);
    match w
    case Idle =>
      PlantIs(c, s.plant, AwaitHello, 0) && FwIs(s.fw, Unconnected, boot) && s.up == [] && s.down == []
    case HelloSent =>
      PlantIs(c, s.plant, AwaitHello, 0) && FwIs(s.fw, AwaitAck, boot)
      && s.up == [SilRunner.Hello(c.fwHello)] && s.down == []
    case AckSent(stateSent) =>
      c.fwHello == c.plantHello && FwIs(s.fw, AwaitAck, boot) && s.up == []
      && PlantIs(c, s.plant, if stateSent then AwaitOut else ToSend, 0)
      && s.down == if stateSent then [AckMsg(c), StateMsg(c, [])] else [AckMsg(c)]
    case Rejected =>
      c.fwHello != c.plantHello && FwIs(s.fw, AwaitAck, boot) && s.up == [] && s.down == [AckMsg(c)]
      && PlantIs(c, s.plant, PlantDone(EXIT_PROTO), 0)
    case Turn(k) =>
      c.fwHello == c.plantHello && NoBreak(c, k) && PlantIs(c, s.plant, ToSend, k) && FwIs(s.fw, Looping, FwAt(c, k))
      && s.up == [] && s.down == []
    case StateSent(k) =>
      c.fwHello == c.plantHello && k < c.ticks && NoBreak(c, k) && PlantIs(c, s.plant, AwaitOut, k)
      && FwIs(s.fw, Looping, FwAt(c, k))
      && s.up == [] && s.down == [StateMsg(c, s.plant.outs)]
    case OutSent(k) =>
      c.fwHello == c.plantHello && k < c.ticks && NoBreak(c, k) && PlantIs(c, s.plant, AwaitOut, k)
      && FwIs(s.fw, Looping, FwAt(c, k + 1))
      && s.up == [OutMsg(c, k)] && s.down == []
    case Over(k, code, byeSent) =>
      c.fwHello == c.plantHello && Outcome(c, k, code) && PlantIs(c, s.plant, PlantDone(code), k)
      && FwIs(s.fw, Looping, FwAt(c, k)) && s.up == []
      && s.down == (if byeSent then [BYE] else []) && (byeSent <==> code == EXIT_CLEAN)
    case Finished(k, code) =>
      c.fwHello == c.plantHello && Outcome(c, k, code) && PlantIs(c, s.plant, PlantDone(code), k)
      && s.fw.phase == Looping && s.fw.s.status == Exited(EXIT_CLEAN) && s.up == [] && s.down == []
    case BothRejected =>
      c.fwHello != c.plantHello && PlantIs(c, s.plant, PlantDone(EXIT_PROTO), 0)
      && s.fw.phase == Looping && s.fw.s.status == Exited(EXIT_PROTO) && s.up == [] && s.down == []
  }

  /** The dynamics stayed finite over the first k exchanges. */
  ghost predicate NoBreak(c: Scene, k: nat)
    requires ValidScene(c)
  {
    k <= c.ticks && forall j | 1 <= j <= k :: !c.breaks(CoSim(c, j).outs)
  }

  /** How a run of k exchanges may end: all ticks done, or the dynamics broke at the last one. */
  ghost predicate Outcome(c: Scene, k: nat, code: int)
    requires ValidScene(c)
  {
    if code == EXIT_CLEAN then k == c.ticks && NoBreak(c, k)
    else code == EXIT_NUMERICAL && 1 <= k <= c.ticks && NoBreak(c, k - 1) && c.breaks(CoSim(c, k).outs)
  }

  // ---------------------------------------------------------------------------------------------
  // The situations are inductive
  // ---------------------------------------------------------------------------------------------

  lemma StartsIdle(c: Scene)
    requires ValidScene(c)
    ensures In(c, Start(c), Idle)
  {
  }

  lemma HelloStep(c: Scene, s: Sys, t: Sys)
    requires ValidScene(c) && In(c, s, HelloSent) && Next(c, s, t)
    ensures In(c, t, if c.fwHello == c.plantHello then AckSent(false) else Rejected)
  {
    hide CoSim, Started;
  }

  /** The firmware may hear the ACK before or after the plant sends the first STATE. */
  lemma AckStep(c: Scene, s: Sys, t: Sys, sent: bool)
    requires ValidScene(c) && In(c, s, AckSent(sent)) && Next(c, s, t)
    ensures In(c, t, if sent then StateSent(0) else if s.fw == t.fw then AckSent(true) else Turn(0))
  {
    hide StateMsg;
    if s.fw != t.fw {
      AckAccepted(c);
    }
  }

  lemma AckAccepted(c: Scene)
    requires ValidScene(c) && c.fwHello == c.plantHello
    ensures AfterHello(c.u.resetReason, c.fwHello, Data(AckMsg(c))) == FwAt(c, 0)
    ensures FwAt(c, 0) == Started(c.u.resetReason)
  {
  }

  lemma RejectedStep(c: Scene, s: Sys, t: Sys)
    requires ValidScene(c) && In(c, s, Rejected) && Next(c, s, t)
    ensures In(c, t, BothRejected)
  {
    hide CoSim;
  }

  lemma TurnStep(c: Scene, s: Sys, t: Sys, k: nat)
    requires ValidScene(c) && In(c, s, Turn(k)) && Next(c, s, t)
    ensures In(c, t, if k < c.ticks then StateSent(k) else Over(k, EXIT_CLEAN, true))
  {
    hide CoSim, StateMsg, FwAt, NoBreak;
  }

  /** Hearing STATE k, the firmware answers with the report of tick k under sequence number k + 1. */
  lemma PassOnState(c: Scene, k: nat)
    requires ValidScene(c) && k < c.ticks
    ensures FwHears(c, Fw(Looping, FwAt(c, k)), Exchange(Data(StateMsg(c, CoSim(c, k).outs)), true))
         == (Fw(Looping, FwAt(c, k + 1)), [OutMsg(c, k)])
  {
    hide TickAt, Report;
    var m := StateMsg(c, CoSim(c, k).outs);
    assert RecvResult(FwAt(c, k).link, Data(m)) == IoOk;
    OneShipped(c, Msg(FwOut, k + 1, OutBody(CoSim(c, k + 1).last)));
  }

  lemma OneShipped(c: Scene, m: Msg)
    requires m.body.OutBody?
    ensures Shipped(c, [m]) == [m.(body := OutBody(c.ship(m.body.o)))]
  {
    assert [m][1..] == [];
  }

  lemma StateStep(c: Scene, s: Sys, t: Sys, k: nat)
    requires ValidScene(c) && In(c, s, StateSent(k)) && Next(c, s, t)
    ensures In(c, t, OutSent(k))
  {
    hide CoSim, StateMsg, OutMsg, NoBreak, FwHears;
    FwRunning(c, k);
    PassOnState(c, k);
    assert [] + [OutMsg(c, k)] == [OutMsg(c, k)];
  }

  lemma FwRunning(c: Scene, k: nat)
    requires ValidScene(c) && k <= c.ticks
    ensures FwAt(c, k).status == Running
  {
  }

  lemma OutStep(c: Scene, s: Sys, t: Sys, k: nat)
    requires ValidScene(c) && In(c, s, OutSent(k)) && Next(c, s, t)
    ensures In(c, t, if c.breaks(CoSim(c, k + 1).outs) then Over(k + 1, EXIT_NUMERICAL, false) else Turn(k + 1))
  {
    hide CoSim, FwAt, StateMsg;
    OutsGrow(c, k);
  }

  lemma OutsGrow(c: Scene, k: nat)
    requires ValidScene(c) && k < c.ticks
    ensures CoSim(c, k + 1).outs == CoSim(c, k).outs + [LastOut(CoSim(c, k + 1).outs)]
  {
    hide TickAt, Report, StateMsg;
  }

  lemma OverStep(c: Scene, s: Sys, t: Sys, k: nat, code: int, bye: bool)
    requires ValidScene(c) && In(c, s, Over(k, code, bye)) && Next(c, s, t)
    ensures In(c, t, Finished(k, code))
  {
    hide CoSim, Outcome;
  }

  /** Distance to the end of the run. */
  function Rank(c: Scene, w: Situation): int {
    match w
    case Idle => 3 * c.ticks + 8
    case HelloSent => 3 * c.ticks + 7
    case AckSent(stateSent) => if stateSent then 3 * c.ticks + 5 else 3 * c.ticks + 6
    case Rejected => 2
    case Turn(k) => 3 * (c.ticks - k) + 5
    case StateSent(k) => 3 * (c.ticks - k) + 4
    case OutSent(k) => 3 * (c.ticks - k) + 3
    case Over(_, _, _) => 2
    case Finished(_, _) => 1
    case BothRejected => 1
  }

  predicate Ended(w: Situation) {
    w.Finished? || w.BothRejected?
  }

  /** Every step leads from one situation to another, strictly nearer the end; once a run has ended no
      step is left. */
  lemma StepKeeps(c: Scene, s: Sys, t: Sys, w: Situation) returns (v: Situation)
    requires ValidScene(c) && In(c, s, w) && Next(c, s, t)
    ensures In(c, t, v) && !Ended(w) && 0 < Rank(c, v) < Rank(c, w)
  {
    hide CoSim, In, Next;
    EndedIsFinal(c, s, t, w);
    match w
    case Idle => v := HelloSent; IdleStep(c, s, t);
    case HelloSent => v := if c.fwHello == c.plantHello then AckSent(false) else Rejected; HelloStep(c, s, t);
    case AckSent(sent) =>
      v := if sent then StateSent(0) else if s.fw == t.fw then AckSent(true) else Turn(0);
      AckStep(c, s, t, sent);
    case Rejected => v := BothRejected; RejectedStep(c, s, t);
    case Turn(k) =>
      v := if k < c.ticks then StateSent(k) else Over(k, EXIT_CLEAN, true);
      TurnBound(c, s, k);
      TurnStep(c, s, t, k);
    case StateSent(k) => v := OutSent(k); TurnBound(c, s, k); StateStep(c, s, t, k);
    case OutSent(k) =>
      TurnBound(c, s, k);
      v := if c.breaks(CoSim(c, k + 1).outs) then Over(k + 1, EXIT_NUMERICAL, false) else Turn(k + 1);
      OutStep(c, s, t, k);
    case Over(k, code, bye) => v := Finished(k, code); OverStep(c, s, t, k, code, bye);
  }

  lemma IdleStep(c: Scene, s: Sys, t: Sys)
    requires ValidScene(c) && In(c, s, Idle) && Next(c, s, t)
    ensures In(c, t, HelloSent)
  {
    hide CoSim, Started;
  }

  lemma TurnBound(c: Scene, s: Sys, k: nat)
    requires ValidScene(c)
    ensures In(c, s, Turn(k)) ==> k <= c.ticks
    ensures In(c, s, StateSent(k)) || In(c, s, OutSent(k)) ==> k < c.ticks
  {
    hide CoSim, FwAt, StateMsg, OutMsg, NoBreak;
  }

  lemma EndedIsFinal(c: Scene, s: Sys, t: Sys, w: Situation)
    requires ValidScene(c) && In(c, s, w) && Next(c, s, t)
    ensures !Ended(w)
  {
    hide CoSim, FwAt, StateMsg, OutMsg, NoBreak, Outcome;
  }

  /** No deadlock: until the run has ended some process can move. */
  lemma CanMove(c: Scene, s: Sys, w: Situation) returns (t: Sys)
    requires ValidScene(c) && In(c, s, w) && !Ended(w)
    ensures Next(c, s, t)
  {
    hide PlantSays, PlantHears, FwHears, CoSim, StateMsg, OutMsg, NoBreak, Outcome;
    match w
    case Idle => t := Sys(s.plant, FwSays(c, s.fw).0, s.up + FwSays(c, s.fw).1, s.down);
    case HelloSent => t := PlantHearing(c, s);
    case AckSent(_) => t := FwHearing(c, s);
    case Rejected => t := FwHearing(c, s);
    case Turn(_) => t := Sys(PlantSays(c, s.plant).0, s.fw, s.up, s.down + PlantSays(c, s.plant).1);
    case StateSent(k) => FwRunning(c, k); t := FwHearing(c, s);
    case OutSent(_) => t := PlantHearing(c, s);
    case Over(_, _, _) => FwRunningAtEnd(c, s, w); t := FwHearing(c, s);
  }

  lemma PlantHearing(c: Scene, s: Sys) returns (t: Sys)
    requires ValidScene(c) && PlantListens(s.plant) && s.up != []
    ensures Next(c, s, t)
  {
    hide PlantHears;
    var (p, sent) := PlantHears(c, s.plant, Head(s.up));
    t := Sys(p, s.fw, Rest(s.up), s.down + sent);
    assert PlantReceives(c, s, t);
  }

  lemma FwHearing(c: Scene, s: Sys) returns (t: Sys)
    requires ValidScene(c) && FwListens(s.fw) && (s.down != [] || Closed(s.plant))
    ensures Next(c, s, t)
  {
    hide FwHears;
    var (f, sent) := FwHears(c, s.fw, Exchange(Head(s.down), !Closed(s.plant)));
    t := Sys(s.plant, f, s.up + sent, Rest(s.down));
    assert FwReceives(c, s, t);
  }

  lemma FwRunningAtEnd(c: Scene, s: Sys, w: Situation)
    requires ValidScene(c) && w.Over? && In(c, s, w)
    ensures s.fw.phase == Looping && s.fw.s.status == Running && Closed(s.plant)
  {
    hide CoSim, Outcome;
  }

  // ---------------------------------------------------------------------------------------------
  // Safety and completion
  // ---------------------------------------------------------------------------------------------

  ghost predicate IsTrace(c: Scene, trace: seq<Sys>)
    requires ValidScene(c)
  {
    trace != [] && trace[0] == Start(c) && forall i | 0 <= i < |trace| - 1 :: Next(c, trace[i], trace[i + 1])
  }

  /** Every trace ends in a situation, and its length is bounded by the distance covered. */
  lemma {:induction false} TraceSituation(c: Scene, trace: seq<Sys>) returns (w: Situation)
    requires ValidScene(c) && IsTrace(c, trace)
    ensures In(c, trace[|trace| - 1], w) && |trace| + Rank(c, w) <= 3 * c.ticks + 9
  {
    hide In, Next;
    if |trace| == 1 {
      w := Idle;
      StartsIdle(c);
    } else {
      var prefix := trace[..|trace| - 1];
      var v := TraceSituation(c, prefix);
      w := StepKeeps(c, prefix[|prefix| - 1], trace[|trace| - 1], v);
    }
  }

  /** Lockstep safety, in every reachable state: the reports the plant has received are those of the
      synchronous co-simulation, the duty it applies is the response computed from its latest STATE,
      the report of tick k carried sequence number k + 1, at most one message is in flight once the
      ACK has been consumed, and neither side has ever left with a protocol violation after a HELLO
      that matched. */
  lemma LockstepSafety(c: Scene, trace: seq<Sys>)
    requires ValidScene(c) && IsTrace(c, trace)
    ensures var s := trace[|trace| - 1];
            var k := |s.plant.outs|;
            && k <= c.ticks && s.plant.outs == CoSim(c, k).outs
            && s.plant.duty == LastOut(s.plant.outs).mot && (k > 0 ==> s.plant.lastSeq == k)
            && (s.fw.phase == Looping ==> |s.up| + |s.down| <= 1)
            && (c.fwHello == c.plantHello ==>
                  s.plant.phase != PlantDone(EXIT_PROTO) && s.fw.s.status != Exited(EXIT_PROTO)
                  && s.fw.s.status != Exited(EXIT_TIMEOUT))
            && (c.fwHello != c.plantHello ==> k == 0 && s.plant.phase !in {ToSend, AwaitOut})
  {
    hide IsTrace, CoSim, StateMsg, OutMsg, NoBreak;
    var w := TraceSituation(c, trace);
    if w.Turn? || w.StateSent? { FwRunning(c, w.k); }
    if w.OutSent? { FwRunning(c, w.k + 1); }
  }

  /** Completion: every run ends after at most 3 * ticks + 8 steps; it is stuck only when it has ended;
      and it ends with both sides clean after all its ticks, or with the plant's numerical exit at the
      first report that breaks its dynamics, or, when the HELLOs differ, with both sides rejecting. */
  lemma LockstepCompletes(c: Scene, trace: seq<Sys>)
    requires ValidScene(c) && IsTrace(c, trace)
    ensures |trace| <= 3 * c.ticks + 8
    ensures var s := trace[|trace| - 1];
            (forall t :: !Next(c, s, t)) ==>
              var k := |s.plant.outs|;
              if c.fwHello != c.plantHello then
                s.plant.phase == PlantDone(EXIT_PROTO) && s.fw.s.status == Exited(EXIT_PROTO)
              else
                && s.fw.s.status == Exited(EXIT_CLEAN)
                && (s.plant.phase == PlantDone(EXIT_CLEAN) || s.plant.phase == PlantDone(EXIT_NUMERICAL))
                && (s.plant.phase == PlantDone(EXIT_CLEAN) ==> k == c.ticks && NoBreak(c, k))
                && (s.plant.phase == PlantDone(EXIT_NUMERICAL) ==>
                      1 <= k <= c.ticks && NoBreak(c, k - 1) && c.breaks(CoSim(c, k).outs))
  {
    hide CoSim, StateMsg, OutMsg, NoBreak, Next;
    var w := TraceSituation(c, trace);
    var s := trace[|trace| - 1];
    if !Ended(w) {
      var t := CanMove(c, s, w);
    }
  }

  /** Rounding to binary32 touches neither flags nor LED nor tick, keeps zero motors at zero and every
      duty in [0, 1] there. */
  ghost predicate Rounds(ship: SilOut -> SilOut) {
    forall o :: RoundedReport(o, ship(o))
  }

  predicate RoundedReport(o: SilOut, p: SilOut) {
    && p == o.(mot := p.mot, attitude := p.attitude, satShift := p.satShift)
    && (o.mot == MOTORS_OFF ==> p.mot == MOTORS_OFF)
    && forall i | 0 <= i < 4 && UnitDuty(o.mot[i]) :: UnitDuty(p.mot[i])
  }

  /** The co-simulation ticks the loop on a clock that moves forward by one period, so every law of
      loop runs on a forward clock holds of what the plant observes. */
  lemma {:induction false} CoSimIsLoopRun(c: Scene, k: nat)
    requires ValidScene(c) && k <= c.ticks
    ensures var y := CoSim(c, k);
            && y.loop == Run(c.u, y.ins, k) && ForwardClock(y.ins) && y.last.tick == 0
            && (forall j | 0 <= j < k :: y.ins[j].st.tUs == 1000 * j && y.ins[j].armTest == c.armTest)
            && (Rounds(c.ship) ==> forall j | 0 <= j < k :: SafeReport(y.outs[j]))
  {
    hide TickAt, Report, Run, SafeReport, RoundedReport;
    if k == 0 {
      RunZero(c.u, []);
    } else {
      CoSimIsLoopRun(c, k - 1);
      var y := CoSim(c, k - 1);
      var x := LoopInput(StateMsg(c, y.outs).body.st, c.armTest);
      var t := TickAt(c.u, y.loop, x);
      RunSnoc(c.u, y.ins, x);
      ReportSafe(c.u, y.loop, x, y.last);
      ReportTick(y.last, t);
      if Rounds(c.ship) {
        RoundedSafe(Report(y.last, t), c.ship(Report(y.last, t)));
      }
    }
  }

  lemma RoundedSafe(o: SilOut, p: SilOut)
    requires SafeReport(o) && RoundedReport(o, p)
    ensures SafeReport(p)
  {
  }

  /** What a plant waiting for FW_OUT makes of whatever arrives: it takes a report exactly when the message
      is an FW_OUT with a newer number, and then applies its motors; in every other case it leaves with
      nothing changed, cleanly after BYE or an end of stream during the last tick. */
  lemma PlantOutcomes(c: Scene, p: Plant, r: Received)
    ensures var q := PlantTakes(c, p, r).0;
            if r.Data? && r.m.typ == FwOut && r.m.body.OutBody? && r.m.seqNo > p.lastSeq then
              && q.outs == p.outs + [r.m.body.o] && q.lastSeq == r.m.seqNo > p.lastSeq && q.duty == r.m.body.o.mot
              && (q.phase == ToSend || (q.phase == PlantDone(4) && c.breaks(q.outs)))
            else
              && q == p.(phase := q.phase)
              && q.phase == PlantDone(if r.NothingInTime? then 3
                                      else if r.Data? && r.m.typ == Bye then 0
                                      else if r.Eof? && |p.outs| + 1 >= c.ticks then 0
                                      else 2)
  {
  }

  /** What the plant makes of the first message: a HELLO with its own period and sizes starts the run, any
      other HELLO is answered before leaving, anything else is left unanswered. */
  lemma GreetingOutcomes(c: Scene, p: Plant, r: Received)
    ensures var (q, sent) := PlantGreets(c, p, r);
            && q == p.(phase := q.phase)
            && if r.Data? && r.m.typ == HalSil.Hello && r.m.body == HelloBody(c.plantHello) then
                 q.phase == ToSend && sent == [Msg(Ack, 0, HelloBody(c.plantHello))]
               else if r.Data? && r.m.typ == HalSil.Hello && r.m.body.HelloBody? then
                 q.phase == PlantDone(2) && sent == [Msg(Ack, 0, HelloBody(c.plantHello))]
               else q.phase == PlantDone(2) && sent == []
  {
  }
}
