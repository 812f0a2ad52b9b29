/** The SIL hardware layer: the last accepted plant state, the output record being built, and the
    sequence bookkeeping of the lockstep client. */
module HalSil {
  import opened Bytes
  import opened Floats
  import opened Ports
  import Wire

  datatype LedMode = LedBoot | LedCalib | LedArmed | LedError | LedFailsafe

  type RcLen = n: int | 0 <= n < 256
  type RcBuf = b: seq<Byte> | |b| == 32 witness seq(32, _ => 0 as Byte)

  /** The STATE payload: the sensors, the clock and a 32-byte buffer of raw RC bytes. */
  datatype StateRc = StateRc(imu: ImuSample, tUs: U64, vbat: Float, rcLen: RcLen, rcRaw: RcBuf)

  /** The FW_OUT payload. */
  datatype SilOut = SilOut(mot: PwmCmd, attitude: Vec3, armed: bool, failsafe: bool, ledMode: LedMode,
                           imuValid: bool, tick: nat, satShift: real)

  const NO_IMU := ImuSample(Vec3(ZERO, ZERO, ZERO), Vec3(ZERO, ZERO, ZERO), false)
  const NO_STATE := StateRc(NO_IMU, 0, ZERO, 0, seq(32, _ => 0 as Byte))
  const NO_OUT := SilOut(MOTORS_OFF, Vec3(ZERO, ZERO, ZERO), false, false, LedBoot, false, 0, 0.0)

  datatype MsgType = Hello | Ack | State | FwOut | Bye | Telem

  datatype Body =
    | HelloBody(hello: Wire.Hello)
    | StateBody(st: StateRc)
    | OutBody(o: SilOut)
    | NoBody

  datatype Msg = Msg(typ: MsgType, seqNo: nat, body: Body)

  /** What a receive can yield: a message, bytes that do not unpack, the end of the stream, nothing
      in time. */
  datatype Received = Data(m: Msg) | Corrupt | Eof | NothingInTime

  datatype IoResult = IoOk | IoClosed | IoProto | IoTimeout

  /** The replay and frozen-time bookkeeping. */
  datatype Link = Link(seqNo: nat, lastStateSeq: nat, lastStateUs: U64, haveState: bool)

  const NEW_LINK := Link(0, 0, 0, false)

  /** What a received message means to a client waiting for STATE. */
  function RecvResult(l: Link, r: Received): IoResult {
    match r
    case Eof => IoClosed
    case NothingInTime => IoTimeout
    case Corrupt => IoProto
    case Data(m) =>
      if m.typ == Bye then IoClosed
      else if m.typ != State || !m.body.StateBody? then IoProto
      else if l.haveState && (m.seqNo <= l.lastStateSeq || m.body.st.tUs <= l.lastStateUs) then IoProto
      else IoOk
  }

  function Accepted(l: Link, m: Msg): Link
    requires m.body.StateBody?
  {
    Link(l.seqNo, m.seqNo, m.body.st.tUs, true)
  }

  /** What the answer to HELLO means: the ACK must carry the very sizes this side has. */
  function HelloResult(local: Wire.Hello, r: Received): IoResult {
    if !r.Data? then IoClosed
    else if r.m.typ != Ack || !r.m.body.HelloBody? then IoProto
    else if r.m.body.hello == local then IoOk
    else IoProto
  }

  /** One call on the PWM port. */
  datatype PwmCall = Write(cmd: PwmCmd) | Off

  function MotorsAfter(c: PwmCall): PwmCmd {
    match c
    case Write(cmd) => cmd
    case Off => MOTORS_OFF
  }

  /** The raw RC bytes delivered for one state: no more than the caller's capacity, and at most the
      32 the record holds. */
  function RawBytes(st: StateRc, cap: nat): (b: seq<Byte>)
    ensures |b| <= cap && |b| <= 32
  {
    var n := if st.rcLen > cap then cap else st.rcLen;
    st.rcRaw[..if n > 32 then 32 else n]
  }

  class SilHal {
    var seqNo: nat
    var lastStateSeq: nat
    var lastStateUs: U64
    var haveState: bool
    var state: StateRc
    var out: SilOut
    /** The calls made on the PWM port so far. */
    ghost var pwmCalls: seq<PwmCall>

    function LinkState(): Link
      reads this
    {
      Link(seqNo, lastStateSeq, lastStateUs, haveState)
    }

    constructor ()
      ensures LinkState() == NEW_LINK && state == NO_STATE && out == NO_OUT && pwmCalls == []
    {
      seqNo, lastStateSeq, lastStateUs, haveState := 0, 0, 0, false;
      state, out, pwmCalls := NO_STATE, NO_OUT, [];
    }

    method RecvState(r: Received) returns (io: IoResult)
      modifies this`lastStateSeq, this`lastStateUs, this`haveState, this`state
      ensures io == RecvResult(old(LinkState()), r)
      ensures io == IoOk ==> LinkState() == Accepted(old(LinkState()), r.m) && state == r.m.body.st
      ensures io != IoOk ==> LinkState() == old(LinkState()) && state == old(state)
    {
      if r == Eof { return IoClosed; }
      if r == NothingInTime { return IoTimeout; }
      if r == Corrupt { return IoProto; }
      if r.m.typ == Bye { return IoClosed; }
      if r.m.typ != State || !r.m.body.StateBody? { return IoProto; }
      var st := r.m.body.st;
      if haveState && (r.m.seqNo <= lastStateSeq || st.tUs <= lastStateUs) { return IoProto; }
      lastStateSeq := r.m.seqNo;
      lastStateUs := st.tUs;
      haveState := true;
      state := st;
      return IoOk;
    }

    /** `seq_++` of every send. */
    method NextMsg(typ: MsgType, body: Body) returns (m: Msg)
      modifies this`seqNo
      ensures m == Msg(typ, old(seqNo), body) && seqNo == old(seqNo) + 1
    {
      m := Msg(typ, seqNo, body);
      seqNo := seqNo + 1;
    }

    method PwmWrite(cmd: PwmCmd)
      modifies this`out, this`pwmCalls
      ensures out == old(out).(mot := cmd) && pwmCalls == old(pwmCalls) + [Write(cmd)]
    {
      for i := 0 to 4
        invariant forall k | 0 <= k < i :: out.mot[k] == cmd[k]
        invariant out == old(out).(mot := out.mot) && pwmCalls == old(pwmCalls)
      {
        out := out.(mot := out.mot[i := cmd[i]]);
      }
      assert out.mot == cmd;
      pwmCalls := pwmCalls + [Write(cmd)];
    }

    method PwmOff()
      modifies this`out, this`pwmCalls
      ensures out == old(out).(mot := MOTORS_OFF) && pwmCalls == old(pwmCalls) + [Off]
    {
      for i := 0 to 4
        invariant forall k | 0 <= k < i :: out.mot[k] == ZERO
        invariant out == old(out).(mot := out.mot) && pwmCalls == old(pwmCalls)
      {
        out := out.(mot := out.mot[i := ZERO]);
      }
      assert out.mot == MOTORS_OFF;
      pwmCalls := pwmCalls + [Off];
    }

    method LedSet(mode: LedMode)
      modifies this`out
      ensures out == old(out).(ledMode := mode)
    {
      out := out.(ledMode := mode);
    }

    method SetStatus(armed: bool, failsafe: bool, imuValid: bool, attitude: Vec3, satShift: real)
      modifies this`out
      ensures out == SilOut(old(out).mot, attitude, armed, failsafe, old(out).ledMode, imuValid, old(out).tick,
                            satShift)
    {
      out := out.(armed := armed, failsafe := failsafe, imuValid := imuValid, attitude := attitude,
                  satShift := satShift);
    }

    /** The single PWM gate: off unless armed, not failing, with a valid IMU, and every channel a
        number in [0, 1]. Returns true when the channels were written. */
    method ApplyOutput(cmd: PwmCmd, armed: bool, failsafe: bool, imuValid: bool) returns (written: bool)
      modifies this`out, this`pwmCalls
      ensures var c := Gate(cmd, armed, failsafe, imuValid);
              out == old(out).(mot := MotorsAfter(c)) && pwmCalls == old(pwmCalls) + [c] && (written <==> c.Write?)
    {
      if !armed || failsafe || !imuValid {
        PwmOff();
        return false;
      }
      var safe := MOTORS_OFF;
      for i := 0 to 4
        invariant forall k | 0 <= k < i :: safe[k] == cmd[k] && UnitDuty(cmd[k])
        invariant out == old(out) && pwmCalls == old(pwmCalls)
      {
        var v := cmd[i];
        if !v.IsFinite() || Less(v, ZERO) || Less(Fin(1.0), v) {
          PwmOff();
          return false;
        }
        safe := safe[i := v];
      }
      assert safe == cmd;
      PwmWrite(safe);
      return true;
    }
  }

  predicate UnitDuty(v: Float) {
    v.Fin? && 0.0 <= v.v <= 1.0
  }

  function Gate(cmd: PwmCmd, armed: bool, failsafe: bool, imuValid: bool): PwmCall {
    if armed && !failsafe && imuValid && forall k | 0 <= k < 4 :: UnitDuty(cmd[k]) then Write(cmd) else Off
  }

  /** Of the RC bytes a state carries, the caller gets as many as it announces, up to 32. */
  lemma RawBytesLaw(st: StateRc)
    ensures RawBytes(st, 64) == st.rcRaw[..(if st.rcLen < 32 then st.rcLen else 32)]
  {
  }
}
