/** The lockstep protocol over channels that carry bytes: every message is packed by its sender and
    unpacked, with its CRC checked, by its receiver, the plant through the Python framing and the firmware
    through the C++ one. */
module ByteLockstep {
  import opened Bytes
  import opened Crc
  import opened HalSil
  import opened SilRunner
  import opened Lockstep
  import opened Wire

  // ---------------------------------------------------------------------------------------------
  // Messages as bytes
  // ---------------------------------------------------------------------------------------------

  /** How payload records are laid out, and read back given the type code of their message. */
  datatype Codec = Codec(write: Body -> seq<Byte>, read: (Byte, seq<Byte>) -> Body)

  function TypeCode(t: MsgType): Byte {
    match t
    case Hello => 1
    case Ack => 2
    case State => 3
    case FwOut => 4
    case Bye => 5
    case Telem => 6
  }

  /** A code that names no type is as unexpected as TELEM to both ends. */
  function TypeOf(b: Byte): MsgType {
    if b == 1 then MsgType.Hello
    else if b == 2 then Ack
    else if b == 3 then State
    else if b == 4 then FwOut
    else if b == 5 then Bye
    else Telem
  }

  /** The 32-bit sequence field of a number, by its little-endian bytes. */
  function SeqField(n: nat): Word {
    FromLe32(ToByte(n % 256), ToByte(n / 256 % 256), ToByte(n / 65536 % 256), ToByte(n / 16777216 % 256))
  }

  function SeqValue(w: Word): nat {
    var bs := Le32(w);
    ToInt(bs[0]) + 256 * ToInt(bs[1]) + 65536 * ToInt(bs[2]) + 16777216 * ToInt(bs[3])
  }

  lemma FourDigits(n: nat)
    requires n < 0x1_0000_0000
    ensures n % 256 + 256 * (n / 256 % 256) + 65536 * (n / 65536 % 256) + 16777216 * (n / 16777216 % 256) == n
  {
    var (q, r) := (n / 256, n / 65536);
    assert q / 256 == r && r / 256 == n / 16777216;
  }

  lemma SeqRoundTrip(n: nat)
    requires n < 0x1_0000_0000
    ensures SeqValue(SeqField(n)) == n
  {
    hide ToByte, ToInt, FromLe32, Le32;
    FourDigits(n);
    ByteOfInt(n % 256);
    ByteOfInt(n / 256 % 256);
    ByteOfInt(n / 65536 % 256);
    ByteOfInt(n / 16777216 % 256);
    FromLe32RoundTrip(ToByte(n % 256), ToByte(n / 256 % 256), ToByte(n / 65536 % 256), ToByte(n / 16777216 % 256));
  }

  function Frame(cd: Codec, m: Msg): (f: seq<Byte>)
    ensures |f| == HDR_SIZE + |cd.write(m.body)|
  {
    Packed(TypeCode(m.typ), SeqField(m.seqNo), cd.write(m.body))
  }

  function Frames(cd: Codec, ms: seq<Msg>): (fs: seq<seq<Byte>>)
    ensures |fs| == |ms| && forall i | 0 <= i < |ms| :: fs[i] == Frame(cd, ms[i])
  {
    seq(|ms|, i requires 0 <= i < |ms| => Frame(cd, ms[i]))
  }

  /** A message on the wire: magic, version, the type's number, and the sequence number from byte 6 on. */
  lemma FrameLayout(cd: Codec, m: Msg)
    requires m.seqNo < 0x1_0000_0000
    ensures var f := Frame(cd, m);
            && f[..3] == [0x4D, 0x53, 1] && f[14..] == cd.write(m.body)
            && (match m.typ
                case Hello => f[3] == 1
                case Ack => f[3] == 2
                case State => f[3] == 3
                case FwOut => f[3] == 4
                case Bye => f[3] == 5
                case Telem => f[3] == 6)
            && ToInt(f[6]) + 256 * ToInt(f[7]) + 65536 * ToInt(f[8]) + 16777216 * ToInt(f[9]) == m.seqNo
  {
    hide Packed, SeqField, ToInt;
    var seqNo := SeqField(m.seqNo);
    PackedLayout(TypeCode(m.typ), seqNo, cd.write(m.body));
    var f := Frame(cd, m);
    assert f[..3] == f[..4][..3] && f[3] == f[..4][3];
    SeqFieldValue(m.seqNo);
  }

  lemma SeqFieldValue(n: nat)
    requires n < 0x1_0000_0000
    ensures SeqField(n) as int == n
  {
    hide ToByte, ToInt, FromLe32;
    FourDigits(n);
    ByteOfInt(n % 256);
    ByteOfInt(n / 256 % 256);
    ByteOfInt(n / 65536 % 256);
    ByteOfInt(n / 16777216 % 256);
    WordValue(ToByte(n % 256), ToByte(n / 256 % 256), ToByte(n / 65536 % 256), ToByte(n / 16777216 % 256));
  }

  /** The receive buffers. A datagram loses what does not fit. */
  const FW_RX: nat := 256
  const PLANT_RX: nat := 4096

  function UpTo(buf: seq<Byte>, n: nat): (b: seq<Byte>)
    ensures |b| <= n && b <= buf
  {
    if |buf| <= n then buf else buf[..n]
  }

  /** A datagram as the firmware receives it; an empty one reads as the end of the stream. */
  function CppReceived(cd: Codec, buf: seq<Byte>): Received {
    if buf == [] then Eof
    else
      match CppUnpack(UpTo(buf, FW_RX))
      case Error(_) => Corrupt
      case Message(h, payload) => Data(Msg(TypeOf(h.typ), SeqValue(h.seqNo), cd.read(h.typ, payload)))
  }

  /** A datagram as the plant receives it. */
  function PyReceived(cd: Codec, buf: seq<Byte>): Received {
    if buf == [] then Eof
    else
      match PyUnpack(UpTo(buf, PLANT_RX))
      case Raised(_) => Corrupt
      case Returned(typ, seqNo, payload) => Data(Msg(TypeOf(typ), SeqValue(seqNo), cd.read(typ, payload)))
  }

  /** Cutting a buffer behind its message changes nothing, cutting it inside leaves no message. */
  lemma CutMessage(buf: seq<Byte>, n: nat)
    requires HDR_SIZE <= n <= |buf|
    ensures var whole := CppUnpack(buf);
            if whole.Message? && HDR_SIZE + whole.hdr.len <= n then CppUnpack(buf[..n]) == whole
            else CppUnpack(buf[..n]).Error?
  {
    hide Crc.Update, Xor, FromLe32, ToInt;
    assert Parse(buf[..n]) == Parse(buf);
    assert ZeroCrc(buf[..n]) == ZeroCrc(buf);
    var total := HDR_SIZE + Parse(buf).len;
    assert total <= n ==> buf[..n][HDR_SIZE..total] == buf[HDR_SIZE..total];
  }

  /** The datagram, as far as the plant reads it, holds a message too long for the firmware's buffer. */
  predicate TooLongForFirmware(buf: seq<Byte>) {
    var r := CppUnpack(if |buf| <= 4096 then buf else buf[..4096]);
    r.Message? && 14 + r.hdr.len > 256
  }

  /** The exact condition under which the two ends receive the same thing. */
  lemma EndsReceiveAlikeIff(cd: Codec, buf: seq<Byte>)
    ensures PyReceived(cd, buf) == CppReceived(cd, buf) <==> !TooLongForFirmware(buf)
  {
    hide PyUnpack, CppUnpack;
    var seen := UpTo(buf, PLANT_RX);
    UnpackersAgree(seen);
    if |buf| > FW_RX {
      assert seen[..FW_RX] == UpTo(buf, FW_RX);
      CutMessage(seen, FW_RX);
    } else {
      ShortMessage(buf);
    }
  }

  lemma ShortMessage(buf: seq<Byte>)
    ensures CppUnpack(buf).Message? ==> HDR_SIZE + CppUnpack(buf).hdr.len <= |buf|
  {
    hide Crc.Update, Xor, Parse;
  }

  /** The layout carries this message: its payload reads back, its frame fits the firmware's buffers (the
      one it packs into is as large as the one it receives into), its number fits the field. */
  predicate Carries(cd: Codec, m: Msg) {
    && HDR_SIZE + |cd.write(m.body)| <= FW_RX && m.seqNo < 0x1_0000_0000
    && cd.read(TypeCode(m.typ), cd.write(m.body)) == m.body
  }

  predicate AllCarried(cd: Codec, ms: seq<Msg>) {
    forall i | 0 <= i < |ms| :: Carries(cd, ms[i])
  }

  lemma FrameArrives(cd: Codec, m: Msg)
    requires Carries(cd, m)
    ensures CppReceived(cd, Frame(cd, m)) == PyReceived(cd, Frame(cd, m)) == Data(m)
  {
    hide CppUnpack, PyUnpack, Packed, SeqField, SeqValue;
    var f := Frame(cd, m);
    RoundTripIff(TypeCode(m.typ), SeqField(m.seqNo), cd.write(m.body), []);
    assert f + [] == f;
    SeqRoundTrip(m.seqNo);
    UnpackersAgree(f);
  }

  // ---------------------------------------------------------------------------------------------
  // The system
  // ---------------------------------------------------------------------------------------------

  datatype ByteSys = ByteSys(plant: Plant, fw: Fw, up: seq<seq<Byte>>, down: seq<seq<Byte>>)

  function ByteStart(c: Scene): ByteSys {
    ByteSys(Start(c).plant, Start(c).fw, [], [])
  }

  predicate PlantSendsBytes(c: Scene, cd: Codec, s: ByteSys, t: ByteSys)
    requires ValidScene(c)
  {
    s.plant.phase == ToSend
    && var (p, sent) := PlantSays(c, s.plant);
       t == ByteSys(p, s.fw, s.up, s.down + Frames(cd, sent))
  }

  predicate PlantReceivesBytes(c: Scene, cd: Codec, s: ByteSys, t: ByteSys) {
    PlantListens(s.plant) && (s.up != [] || FwGone(s.fw))
    && var (p, sent) := PlantHears(c, s.plant, if s.up != [] then PyReceived(cd, s.up[0]) else Eof);
       t == ByteSys(p, s.fw, Rest(s.up), s.down + Frames(cd, sent))
  }

  predicate FwConnectsBytes(c: Scene, cd: Codec, s: ByteSys, t: ByteSys) {
    s.fw.phase == Unconnected
    && var (f, sent) := FwSays(c, s.fw);
       t == ByteSys(s.plant, f, s.up + Frames(cd, sent), s.down)
  }

  predicate FwReceivesBytes(c: Scene, cd: Codec, s: ByteSys, t: ByteSys) {
    FwListens(s.fw) && (s.down != [] || Closed(s.plant))
    && var r := if s.down != [] then CppReceived(cd, s.down[0]) else Eof;
       var (f, sent) := FwHears(c, s.fw, Exchange(r, !Closed(s.plant)));
       t == ByteSys(s.plant, f, s.up + Frames(cd, sent), Rest(s.down))
  }

  predicate ByteNext(c: Scene, cd: Codec, s: ByteSys, t: ByteSys)
    requires ValidScene(c)
  {
    || PlantSendsBytes(c, cd, s, t) || PlantReceivesBytes(c, cd, s, t)
    || FwConnectsBytes(c, cd, s, t) || FwReceivesBytes(c, cd, s, t)
  }

  function Encoded(cd: Codec, s: Sys): ByteSys {
    ByteSys(s.plant, s.fw, Frames(cd, s.up), Frames(cd, s.down))
  }

  /** The layout carries every message that the run of this scene can send. */
  ghost predicate CarriesScene(cd: Codec, c: Scene)
    requires ValidScene(c)
  {
    && Carries(cd, SilRunner.Hello(c.fwHello)) && Carries(cd, AckMsg(c)) && Carries(cd, BYE)
    && forall k: nat | k < c.ticks :: Carries(cd, StateMsg(c, CoSim(c, k).outs)) && Carries(cd, OutMsg(c, k))
  }

  // ---------------------------------------------------------------------------------------------
  // Bytes simulate records, and records bytes
  // ---------------------------------------------------------------------------------------------

  lemma InFlightCarried(c: Scene, cd: Codec, s: Sys, w: Situation)
    requires ValidScene(c) && In(c, s, w) && CarriesScene(cd, c)
    ensures AllCarried(cd, s.up)
    ensures AllCarried(cd, s.down)
  {
    hide CoSim, StateMsg, OutMsg, FwAt, NoBreak, Outcome, Carries;
    ScenePieces(c, cd, w);
  }

  lemma ScenePieces(c: Scene, cd: Codec, w: Situation)
    requires ValidScene(c) && CarriesScene(cd, c)
    ensures Carries(cd, StateMsg(c, []))
    ensures w.StateSent? && w.k < c.ticks ==> Carries(cd, StateMsg(c, CoSim(c, w.k).outs))
    ensures w.OutSent? && w.k < c.ticks ==> Carries(cd, OutMsg(c, w.k))
  {
    hide StateMsg, OutMsg, Carries;
    assert CoSim(c, 0).outs == [];
  }

  lemma FramesConcat(cd: Codec, a: seq<Msg>, b: seq<Msg>)
    ensures Frames(cd, a + b) == Frames(cd, a) + Frames(cd, b)
    ensures Frames(cd, Rest(a)) == Rest(Frames(cd, a))
  {
    hide Frame;
  }

  /** What arrives from an encoded channel is what was sent. */
  lemma HeadArrives(cd: Codec, ms: seq<Msg>)
    requires AllCarried(cd, ms)
    ensures ms != [] ==> CppReceived(cd, Frames(cd, ms)[0]) == PyReceived(cd, Frames(cd, ms)[0]) == Head(ms)
  {
    hide CppReceived, PyReceived, Frame;
    if ms != [] {
      FrameArrives(cd, ms[0]);
    }
  }

  /** The four kinds of step, by who acts. */
  datatype Action = PlantSend | PlantReceive | FwConnect | FwReceive

  predicate Enabled(s: Sys, a: Action) {
    match a
    case PlantSend => s.plant.phase == ToSend
    case PlantReceive => PlantListens(s.plant) && (s.up != [] || FwGone(s.fw))
    case FwConnect => s.fw.phase == Unconnected
    case FwReceive => FwListens(s.fw) && (s.down != [] || Closed(s.plant))
  }

  function After(c: Scene, s: Sys, a: Action): Sys
    requires ValidScene(c)
  {
    match a
    case PlantSend => var (p, sent) := PlantSays(c, s.plant); Sys(p, s.fw, s.up, s.down + sent)
    case PlantReceive => var (p, sent) := PlantHears(c, s.plant, Head(s.up)); Sys(p, s.fw, Rest(s.up), s.down + sent)
    case FwConnect => var (f, sent) := FwSays(c, s.fw); Sys(s.plant, f, s.up + sent, s.down)
    case FwReceive =>
      var (f, sent) := FwHears(c, s.fw, Exchange(Head(s.down), !Closed(s.plant)));
      Sys(s.plant, f, s.up + sent, Rest(s.down))
  }

  /** b is where action a leads over bytes. */
  predicate LeadsTo(c: Scene, cd: Codec, s: Sys, a: Action, b: ByteSys)
    requires ValidScene(c)
  {
    Enabled(s, a) && b == Encoded(cd, After(c, s, a))
  }

  lemma PlantSendAgrees(c: Scene, cd: Codec, s: Sys, b: ByteSys)
    requires ValidScene(c)
    ensures PlantSendsBytes(c, cd, Encoded(cd, s), b) <==> LeadsTo(c, cd, s, PlantSend, b)
  {
    hide Frames, PlantSays;
    FramesConcat(cd, s.down, PlantSays(c, s.plant).1);
  }

  lemma PlantReceiveAgrees(c: Scene, cd: Codec, s: Sys, b: ByteSys)
    requires ValidScene(c) && AllCarried(cd, s.up)
    ensures PlantReceivesBytes(c, cd, Encoded(cd, s), b) <==> LeadsTo(c, cd, s, PlantReceive, b)
  {
    hide Frames, PyReceived, PlantHears, AllCarried;
    HeadArrives(cd, s.up);
    FramesConcat(cd, s.up, []);
    FramesConcat(cd, s.down, PlantHears(c, s.plant, Head(s.up)).1);
  }

  lemma FwConnectAgrees(c: Scene, cd: Codec, s: Sys, b: ByteSys)
    requires ValidScene(c)
    ensures FwConnectsBytes(c, cd, Encoded(cd, s), b) <==> LeadsTo(c, cd, s, FwConnect, b)
  {
    hide Frames, FwSays;
    FramesConcat(cd, s.up, FwSays(c, s.fw).1);
  }

  lemma FwReceiveAgrees(c: Scene, cd: Codec, s: Sys, b: ByteSys)
    requires ValidScene(c) && AllCarried(cd, s.down)
    ensures FwReceivesBytes(c, cd, Encoded(cd, s), b) <==> LeadsTo(c, cd, s, FwReceive, b)
  {
    hide Frames, CppReceived, FwHears, AllCarried;
    HeadArrives(cd, s.down);
    FramesConcat(cd, s.down, []);
    FramesConcat(cd, s.up, FwHears(c, s.fw, Exchange(Head(s.down), !Closed(s.plant))).1);
  }

  lemma RecordSteps(c: Scene, s: Sys, t: Sys)
    requires ValidScene(c)
    ensures Next(c, s, t) <==> exists a :: Enabled(s, a) && t == After(c, s, a)
  {
    hide PlantSays, PlantHears, FwSays, FwHears;
    if PlantSends(c, s, t) { assert Enabled(s, PlantSend) && t == After(c, s, PlantSend); }
    if PlantReceives(c, s, t) { assert Enabled(s, PlantReceive) && t == After(c, s, PlantReceive); }
    if FwConnects(c, s, t) { assert Enabled(s, FwConnect) && t == After(c, s, FwConnect); }
    if FwReceives(c, s, t) { assert Enabled(s, FwReceive) && t == After(c, s, FwReceive); }
  }

  /** With carried messages in flight, the steps over bytes are the encodings of those over records. */
  lemma StepsAgree(c: Scene, cd: Codec, s: Sys, b: ByteSys)
    requires ValidScene(c) && AllCarried(cd, s.up) && AllCarried(cd, s.down)
    ensures ByteNext(c, cd, Encoded(cd, s), b) <==> exists a :: LeadsTo(c, cd, s, a, b)
  {
    hide AllCarried, Encoded, LeadsTo, PlantSendsBytes, PlantReceivesBytes, FwConnectsBytes, FwReceivesBytes;
    PlantSendAgrees(c, cd, s, b);
    PlantReceiveAgrees(c, cd, s, b);
    FwConnectAgrees(c, cd, s, b);
    FwReceiveAgrees(c, cd, s, b);
    if a :| LeadsTo(c, cd, s, a, b) {
      assert a == PlantSend || a == PlantReceive || a == FwConnect || a == FwReceive;
    }
  }

  lemma BytesToRecords(c: Scene, cd: Codec, s: Sys, w: Situation, b: ByteSys) returns (t: Sys)
    requires ValidScene(c) && In(c, s, w) && CarriesScene(cd, c) && ByteNext(c, cd, Encoded(cd, s), b)
    ensures Next(c, s, t) && b == Encoded(cd, t)
  {
    InFlightCarried(c, cd, s, w);
    hide In, CarriesScene, AllCarried, ByteNext, Next, Encoded, Enabled, After;
    StepsAgree(c, cd, s, b);
    var a :| LeadsTo(c, cd, s, a, b);
    t := After(c, s, a);
    RecordSteps(c, s, t);
  }

  lemma RecordsToBytes(c: Scene, cd: Codec, s: Sys, w: Situation, t: Sys)
    requires ValidScene(c) && In(c, s, w) && CarriesScene(cd, c) && Next(c, s, t)
    ensures ByteNext(c, cd, Encoded(cd, s), Encoded(cd, t))
  {
    InFlightCarried(c, cd, s, w);
    hide In, CarriesScene, AllCarried, ByteNext, Next, Encoded, Enabled, After;
    RecordSteps(c, s, t);
    StepsAgree(c, cd, s, Encoded(cd, t));
    var a :| Enabled(s, a) && t == After(c, s, a);
    assert LeadsTo(c, cd, s, a, Encoded(cd, t));
  }

  ghost predicate IsByteTrace(c: Scene, cd: Codec, trace: seq<ByteSys>)
    requires ValidScene(c)
  {
    trace != [] && trace[0] == ByteStart(c)
    && forall i | 0 <= i < |trace| - 1 :: ByteNext(c, cd, trace[i], trace[i + 1])
  }

  /** Every trace over bytes encodes a trace over records, state by state. */
  lemma {:induction false} TraceDecodes(c: Scene, cd: Codec, bytes: seq<ByteSys>) returns (trace: seq<Sys>)
    requires ValidScene(c) && CarriesScene(cd, c) && IsByteTrace(c, cd, bytes)
    ensures IsTrace(c, trace) && |trace| == |bytes|
    ensures forall i | 0 <= i < |bytes| :: bytes[i] == Encoded(cd, trace[i])
  {
    hide ByteNext, Next, In, CarriesScene, Start;
    if |bytes| == 1 {
      trace := [Start(c)];
      StartEncoded(c, cd);
    } else {
      var before := bytes[..|bytes| - 1];
      var prefix := TraceDecodes(c, cd, before);
      var w := TraceSituation(c, prefix);
      var t := BytesToRecords(c, cd, prefix[|prefix| - 1], w, bytes[|bytes| - 1]);
      trace := prefix + [t];
    }
  }

  lemma StartEncoded(c: Scene, cd: Codec)
    ensures ByteStart(c) == Encoded(cd, Start(c))
  {
  }

  /** Lockstep safety and completion over bytes. At every moment of every run: the reports received are
      those of the synchronous co-simulation, the applied duty answers the latest STATE, at most one
      datagram is in flight after the ACK, and no side has left for a bad message after a matching HELLO.
      Every run is finite, and where it cannot go on it has ended as it should. */
  lemma ByteLockstepCorrect(c: Scene, cd: Codec, bytes: seq<ByteSys>)
    requires ValidScene(c) && CarriesScene(cd, c) && IsByteTrace(c, cd, bytes)
    ensures |bytes| <= 3 * c.ticks + 8
    ensures var s := bytes[|bytes| - 1];
            var k := |s.plant.outs|;
            && k <= c.ticks && s.plant.outs == CoSim(c, k).outs && s.plant.duty == LastOut(s.plant.outs).mot
            && (s.fw.phase == Looping ==> |s.up| + |s.down| <= 1)
            && (c.fwHello == c.plantHello ==>
                  s.plant.phase != PlantDone(EXIT_PROTO) && s.fw.s.status != Exited(EXIT_PROTO))
            && ((forall t :: !ByteNext(c, cd, s, t)) ==>
                  if c.fwHello != c.plantHello then
                    s.plant.phase == PlantDone(EXIT_PROTO) && s.fw.s.status == Exited(EXIT_PROTO)
                  else
                    && s.fw.s.status == Exited(EXIT_CLEAN)
                    && (s.plant.phase == PlantDone(EXIT_CLEAN) || s.plant.phase == PlantDone(EXIT_NUMERICAL))
                    && (s.plant.phase == PlantDone(EXIT_CLEAN) ==> k == c.ticks))
  {
    hide IsTrace, ByteNext, Next, In, CarriesScene, CoSim, Frames, NoBreak;
    var trace := TraceDecodes(c, cd, bytes);
    var s := trace[|trace| - 1];
    LastOfTrace(c, trace);
    LockstepSafety(c, trace);
    LockstepCompletes(c, trace);
    FrameCount(cd, s);
    var w := TraceSituation(c, trace);
    if t :| Next(c, s, t) {
      RecordsToBytes(c, cd, s, w, t);
    }
  }

  lemma LastOfTrace(c: Scene, trace: seq<Sys>)
    requires ValidScene(c) && IsTrace(c, trace)
    ensures trace != []
  {
  }

  lemma FrameCount(cd: Codec, s: Sys)
    ensures |Encoded(cd, s).up| == |s.up| && |Encoded(cd, s).down| == |s.down|
  {
  }

  // ---------------------------------------------------------------------------------------------
  // Such layouts exist
  // ---------------------------------------------------------------------------------------------

  /** The tick whose STATE or FW_OUT has this payload. */
  ghost function TickOf(c: Scene, b: Body): (k: nat)
    requires ValidScene(c)
    ensures k < c.ticks
    ensures b.StateBody? && (exists j: nat :: j < c.ticks && StateOf(c, j) == b) ==> StateOf(c, k) == b
    ensures b.OutBody? && (exists j: nat :: j < c.ticks && OutMsg(c, j).body == b) ==> OutMsg(c, k).body == b
  {
    if b.StateBody? && exists j: nat :: j < c.ticks && StateOf(c, j) == b then
      var j: nat :| j < c.ticks && StateOf(c, j) == b; j
    else if b.OutBody? && exists j: nat :: j < c.ticks && OutMsg(c, j).body == b then
      var j: nat :| j < c.ticks && OutMsg(c, j).body == b; j
    else 0
  }

  function StateOf(c: Scene, k: nat): Body
    requires ValidScene(c) && k < c.ticks
  {
    StateMsg(c, CoSim(c, k).outs).body
  }

  /** A layout made for one scene: which HELLO, or the number of the tick. */
  ghost function Wrote(c: Scene, b: Body): seq<Byte>
    requires ValidScene(c)
  {
    match b
    case HelloBody(h) => if h == c.fwHello then [0] else [1]
    case NoBody => []
    case _ => Le32(SeqField(TickOf(c, b)))
  }

  ghost function ReadBack(c: Scene, typ: Byte, bs: seq<Byte>): Body
    requires ValidScene(c)
  {
    if typ == TypeCode(MsgType.Hello) || typ == TypeCode(Ack) then
      HelloBody(if bs == [0] then c.fwHello else c.plantHello)
    else if |bs| != 4 then NoBody
    else
      var k := SeqValue(FromLe32(bs[0], bs[1], bs[2], bs[3]));
      if k >= c.ticks then NoBody
      else if typ == TypeCode(State) then StateOf(c, k)
      else OutMsg(c, k).body
  }

  /** No scene is out of reach of the theorems above for want of a layout. */
  lemma LayoutExists(c: Scene) returns (cd: Codec)
    requires ValidScene(c)
    ensures CarriesScene(cd, c)
  {
    hide CoSim, Le32, FromLe32, SeqField, SeqValue, OutMsg, StateMsg;
    cd := Codec(b => Wrote(c, b), (typ, bs) => ReadBack(c, typ, bs));
    forall k: nat | k < c.ticks
      ensures Carries(cd, StateMsg(c, CoSim(c, k).outs)) && Carries(cd, OutMsg(c, k))
    {
      MessageShapes(c, k);
      NumberCarried(TickOf(c, StateOf(c, k)));
      NumberCarried(TickOf(c, OutMsg(c, k).body));
    }
  }

  lemma NumberCarried(k: nat)
    requires k < 0x1_0000_0000
    ensures var bs := Le32(SeqField(k)); SeqValue(FromLe32(bs[0], bs[1], bs[2], bs[3])) == k
  {
    hide Le32, FromLe32, SeqField, SeqValue;
    SeqRoundTrip(k);
    Le32RoundTrip(SeqField(k));
  }

  lemma MessageShapes(c: Scene, k: nat)
    requires ValidScene(c) && k < c.ticks
    ensures var m := StateMsg(c, CoSim(c, k).outs); m.typ == State && m.body.StateBody? && m.seqNo == k
    ensures OutMsg(c, k).typ == FwOut && OutMsg(c, k).body.OutBody? && OutMsg(c, k).seqNo == k + 1
  {
    hide CoSim;
  }

  // ---------------------------------------------------------------------------------------------
  // Corruption meets the protocol
  // ---------------------------------------------------------------------------------------------

  /** A burst of at most four bytes that spares the length and CRC fields, or any damage within the CRC
      field. */
  ghost predicate Damaged(buf: seq<Byte>, bad: seq<Byte>)
    requires |buf| >= HDR_SIZE
  {
    || (exists i: nat, w: nat :: Burst(buf, bad, i, w))
    || DifferWithin(buf, bad, 10, 4)
  }

  ghost predicate Burst(buf: seq<Byte>, bad: seq<Byte>, i: nat, w: nat)
    requires |buf| >= HDR_SIZE
  {
    DifferWithin(buf, bad, i, w) && w <= 4 && bad[4..6] == buf[4..6] && bad[10..14] == buf[10..14]
  }

  lemma FrameWellFormed(cd: Codec, m: Msg)
    requires Carries(cd, m)
    ensures WellFormed(Frame(cd, m))
  {
    hide CppUnpack, SeqField;
    RoundTripIff(TypeCode(m.typ), SeqField(m.seqNo), cd.write(m.body), []);
    assert Frame(cd, m) + [] == Frame(cd, m);
    AcceptedLength(Frame(cd, m));
  }

  lemma AcceptedLength(buf: seq<Byte>)
    requires CppUnpack(buf).Message?
    ensures |CppUnpack(buf).payload| == CppUnpack(buf).hdr.len
  {
    hide Crc.Update, Xor, FromLe32, ToInt;
  }

  /** A datagram that is damaged is not well formed. */
  lemma DamagedBreaks(cd: Codec, m: Msg, bad: seq<Byte>)
    requires Carries(cd, m) && Damaged(Frame(cd, m), bad)
    ensures CppUnpack(bad).Error? && PyUnpack(bad).Raised? && CppReceived(cd, bad) == PyReceived(cd, bad) == Corrupt
  {
    hide CppUnpack, PyUnpack, Frame;
    FrameWellFormed(cd, m);
    var buf := Frame(cd, m);
    if i: nat, w: nat :| Burst(buf, bad, i, w) {
      BurstRejected(buf, bad, i, w);
    } else {
      CrcFieldRejected(buf, bad);
    }
    UnpackersAgree(bad);
  }

  /** Damage to a datagram in flight never passes for a message: whoever receives it leaves with a
      protocol exit, sends nothing, and has neither ticked nor applied anything on it. */
  lemma DamageStops(c: Scene, cd: Codec, m: Msg, bad: seq<Byte>, p: Plant, f: Fw, sendOk: bool)
    requires Carries(cd, m) && Damaged(Frame(cd, m), bad)
    requires PlantListens(p) && FwListens(f)
    ensures PlantHears(c, p, PyReceived(cd, bad)) == (p.(phase := PlantDone(EXIT_PROTO)), [])
    ensures var (g, sent) := FwHears(c, f, Exchange(CppReceived(cd, bad), sendOk));
            g.phase == Looping && g.s.status == Exited(EXIT_PROTO) && sent == []
            && (f.phase == Looping ==> g.s == f.s.(status := Exited(EXIT_PROTO)))
  {
    hide CppReceived, PyReceived, Damaged, Frame, Carries;
    DamagedBreaks(cd, m, bad);
  }
}
