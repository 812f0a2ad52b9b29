/** The lockstep protocol over channels that damage datagrams in flight. */
module NoisyLockstep {
  import opened Bytes
  import opened HalSil
  import opened SilRunner
  import opened Lockstep
  import opened Wire
  import opened ByteLockstep

  /** The channel damages one datagram of a queue; a datagram is hit at most once, since what is left of
      it is no longer well formed. */
  ghost predicate Hit(was: seq<seq<Byte>>, now: seq<seq<Byte>>) {
    exists i: nat, bad: seq<Byte> :: HitAt(was, now, i, bad)
  }

  ghost predicate HitAt(was: seq<seq<Byte>>, now: seq<seq<Byte>>, i: nat, bad: seq<Byte>) {
    i < |was| && WellFormed(was[i]) && Damaged(was[i], bad) && now == was[i := bad]
  }

  ghost predicate NoisyNext(c: Scene, cd: Codec, s: ByteSys, t: ByteSys)
    requires ValidScene(c)
  {
    || ByteNext(c, cd, s, t)
    || (Hit(s.up, t.up) && t == s.(up := t.up))
    || (Hit(s.down, t.down) && t == s.(down := t.down))
  }

  ghost predicate IsNoisyTrace(c: Scene, cd: Codec, trace: seq<ByteSys>)
    requires ValidScene(c)
  {
    trace != [] && trace[0] == ByteStart(c)
    && forall i | 0 <= i < |trace| - 1 :: NoisyNext(c, cd, trace[i], trace[i + 1])
  }

  /** The plant has received the reports of the synchronous co-simulation and nothing else; where it has
      left cleanly it misses at most the last. */
  ghost predicate PlantRight(c: Scene, p: Plant)
    requires ValidScene(c)
  {
    && |p.outs| <= c.ticks && p.outs == CoSim(c, |p.outs|).outs && p.duty == LastOut(p.outs).mot
    && (p.phase == PlantDone(EXIT_CLEAN) ==> |p.outs| + 1 >= c.ticks)
  }

  /** While it runs, the firmware is where the co-simulation is after some tick. */
  ghost predicate FwRight(c: Scene, f: Fw)
    requires ValidScene(c)
  {
    f.phase == Looping && f.s.status == Running ==> exists k: nat :: k <= c.ticks && f.s == FwAt(c, k)
  }

  /** A queue of datagrams that are the messages' frames, some of them damaged. */
  ghost predicate Like(cd: Codec, ms: seq<Msg>, bs: seq<seq<Byte>>) {
    |ms| == |bs| && forall i | 0 <= i < |ms| :: LikeFrame(cd, ms[i], bs[i])
  }

  ghost predicate LikeFrame(cd: Codec, m: Msg, b: seq<Byte>) {
    b == Frame(cd, m) || Damaged(Frame(cd, m), b)
  }

  /** Nobody has received anything damaged yet. */
  ghost predicate OnCourse(c: Scene, cd: Codec, b: ByteSys, s: Sys, w: Situation)
    requires ValidScene(c)
  {
    In(c, s, w) && b.plant == s.plant && b.fw == s.fw && Like(cd, s.up, b.up) && Like(cd, s.down, b.down)
  }

  /** Somebody has, and left: nothing is on its way up, and a firmware still there will find the stream
      ended. */
  ghost predicate Aftermath(c: Scene, b: ByteSys)
    requires ValidScene(c)
  {
    && PlantRight(c, b.plant) && FwRight(c, b.fw) && b.up == [] && b.fw.phase != Unconnected
    && (FwGone(b.fw) || (Closed(b.plant) && b.down == []))
  }

  ghost predicate Sound(c: Scene, cd: Codec, b: ByteSys)
    requires ValidScene(c)
  {
    Aftermath(c, b) || exists s, w :: OnCourse(c, cd, b, s, w)
  }

  lemma BothRight(c: Scene, s: Sys, w: Situation)
    requires ValidScene(c) && In(c, s, w)
    ensures PlantRight(c, s.plant) && FwRight(c, s.fw)
  {
    hide CoSim, FwAt, StateMsg, OutMsg, NoBreak;
  }

  /** The two channels are never in use at once while somebody listens. */
  lemma OneWayTraffic(c: Scene, s: Sys, w: Situation)
    requires ValidScene(c) && In(c, s, w)
    ensures s.down != [] ==> s.up == [] && s.fw.phase != Unconnected
    ensures s.up != [] ==> |s.up| == 1 && s.fw.phase != Unconnected
  {
    hide CoSim, FwAt, StateMsg, OutMsg, NoBreak, Outcome;
  }

  lemma HitKeepsLike(cd: Codec, ms: seq<Msg>, was: seq<seq<Byte>>, now: seq<seq<Byte>>)
    requires AllCarried(cd, ms) && Like(cd, ms, was) && Hit(was, now)
    ensures Like(cd, ms, now)
  {
    hide Carries, Frame, Damaged, CppUnpack, PyUnpack, CppReceived, PyReceived;
    var i: nat, bad: seq<Byte> :| HitAt(was, now, i, bad);
    if was[i] != Frame(cd, ms[i]) {
      DamagedBreaks(cd, ms[i], was[i]);
      assert false;
    }
  }

  lemma LikeGrows(cd: Codec, ms: seq<Msg>, bs: seq<seq<Byte>>, more: seq<Msg>)
    requires Like(cd, ms, bs)
    ensures Like(cd, ms + more, bs + Frames(cd, more)) && Like(cd, Rest(ms), Rest(bs))
    ensures ms == [] <==> bs == []
  {
    hide Frame, Damaged;
  }

  /** What a receiver makes of the head of a channel. */
  lemma HeadOrCorrupt(cd: Codec, ms: seq<Msg>, bs: seq<seq<Byte>>)
    requires AllCarried(cd, ms) && Like(cd, ms, bs) && ms != []
    ensures CppReceived(cd, bs[0]) == PyReceived(cd, bs[0])
    ensures PyReceived(cd, bs[0]) == Head(ms) || PyReceived(cd, bs[0]) == Corrupt
  {
    hide Carries, Frame, Damaged, CppReceived, PyReceived, CppUnpack, PyUnpack;
    assert LikeFrame(cd, ms[0], bs[0]);
    if bs[0] == Frame(cd, ms[0]) {
      FrameArrives(cd, ms[0]);
    } else {
      DamagedBreaks(cd, ms[0], bs[0]);
    }
  }

  lemma AftermathStays(c: Scene, cd: Codec, b: ByteSys, t: ByteSys)
    requires ValidScene(c) && Aftermath(c, b) && NoisyNext(c, cd, b, t)
    ensures Aftermath(c, t)
  {
    hide CoSim, FwAt, CppReceived, PyReceived, Frame, Damaged, CppUnpack;
    if PlantReceivesBytes(c, cd, b, t) {
      PlantMeetsEnd(c, b.plant);
    } else if FwReceivesBytes(c, cd, b, t) {
      FwMeetsEnd(c, b.fw, !Closed(b.plant));
    }
  }

  lemma PlantMeetsEnd(c: Scene, p: Plant)
    requires ValidScene(c) && PlantListens(p)
    ensures var q := PlantHears(c, p, Eof).0;
            && q.outs == p.outs && q.duty == p.duty && Closed(q)
            && (q.phase == PlantDone(EXIT_CLEAN) ==> |p.outs| + 1 >= c.ticks)
  {
  }

  lemma FwMeetsEnd(c: Scene, f: Fw, sendOk: bool)
    requires FwListens(f)
    ensures FwGone(FwHears(c, f, Exchange(Eof, sendOk)).0)
    ensures !sendOk || f.phase == AwaitAck ==> FwHears(c, f, Exchange(Eof, sendOk)).1 == []
  {
  }

  lemma PlantMeetsCorrupt(c: Scene, p: Plant)
    requires PlantListens(p)
    ensures PlantHears(c, p, Corrupt) == (p.(phase := PlantDone(EXIT_PROTO)), [])
  {
  }

  lemma FwMeetsCorrupt(c: Scene, f: Fw, sendOk: bool)
    requires FwListens(f)
    ensures FwGone(FwHears(c, f, Exchange(Corrupt, sendOk)).0) && FwHears(c, f, Exchange(Corrupt, sendOk)).1 == []
  {
  }

  /** A step on course that follows one over records stays on course. */
  lemma Follows(c: Scene, cd: Codec, s: Sys, w: Situation, a: Action, t: ByteSys)
    requires ValidScene(c) && In(c, s, w) && Enabled(s, a)
    requires var r := After(c, s, a);
             t.plant == r.plant && t.fw == r.fw && Like(cd, r.up, t.up) && Like(cd, r.down, t.down)
    ensures Sound(c, cd, t)
  {
    hide In, Next, After, Enabled, Like, Aftermath;
    var r := After(c, s, a);
    RecordSteps(c, s, r);
    var v := StepKeeps(c, s, r, w);
    assert OnCourse(c, cd, t, r, v);
  }

  lemma AftermathIsSound(c: Scene, cd: Codec, b: ByteSys)
    requires ValidScene(c) && Aftermath(c, b)
    ensures Sound(c, cd, b)
  {
  }

  /** A receive that yields what was sent, or the end of an empty stream, is a step over records. */
  lemma PlantFollows(c: Scene, cd: Codec, b: ByteSys, s: Sys, w: Situation, t: ByteSys)
    requires ValidScene(c) && OnCourse(c, cd, b, s, w) && PlantReceivesBytes(c, cd, b, t)
    requires s.up != [] ==> b.up != [] && PyReceived(cd, b.up[0]) == Head(s.up)
    ensures Sound(c, cd, t)
  {
    hide In, Frames, Like, PyReceived, PlantHears, Sound;
    LikeGrows(cd, s.up, b.up, []);
    LikeGrows(cd, s.down, b.down, PlantHears(c, s.plant, Head(s.up)).1);
    Follows(c, cd, s, w, PlantReceive, t);
  }

  lemma PlantReceivesNoisy(c: Scene, cd: Codec, b: ByteSys, s: Sys, w: Situation, t: ByteSys)
    requires ValidScene(c) && OnCourse(c, cd, b, s, w) && AllCarried(cd, s.up) && PlantReceivesBytes(c, cd, b, t)
    ensures Sound(c, cd, t)
  {
    hide In, Frames, Like, AllCarried, PyReceived, CppReceived, PlantHears, Sound, Aftermath;
    LikeGrows(cd, s.up, b.up, []);
    if s.up == [] {
      PlantFollows(c, cd, b, s, w, t);
    } else {
      HeadOrCorrupt(cd, s.up, b.up);
      if PyReceived(cd, b.up[0]) == Head(s.up) {
        PlantFollows(c, cd, b, s, w, t);
      } else {
        PlantMeetsCorrupt(c, b.plant);
        PlantLeaves(c, cd, b, s, w, t);
        AftermathIsSound(c, cd, t);
      }
    }
  }

  lemma PlantLeaves(c: Scene, cd: Codec, b: ByteSys, s: Sys, w: Situation, t: ByteSys)
    requires ValidScene(c) && OnCourse(c, cd, b, s, w) && s.up != [] && PlantListens(s.plant)
    requires t == ByteSys(b.plant.(phase := PlantDone(EXIT_PROTO)), b.fw, Rest(b.up), b.down + Frames(cd, []))
    ensures Aftermath(c, t)
  {
    hide CoSim, FwAt, StateMsg, OutMsg, NoBreak, Outcome, LikeFrame;
    BothRight(c, s, w);
    OneWayTraffic(c, s, w);
  }

  lemma FwFollows(c: Scene, cd: Codec, b: ByteSys, s: Sys, w: Situation, t: ByteSys)
    requires ValidScene(c) && OnCourse(c, cd, b, s, w) && FwReceivesBytes(c, cd, b, t)
    requires s.down != [] ==> b.down != [] && CppReceived(cd, b.down[0]) == Head(s.down)
    ensures Sound(c, cd, t)
  {
    hide In, Frames, Like, CppReceived, FwHears, Sound;
    LikeGrows(cd, s.down, b.down, []);
    LikeGrows(cd, s.up, b.up, FwHears(c, s.fw, Exchange(Head(s.down), !Closed(s.plant))).1);
    Follows(c, cd, s, w, FwReceive, t);
  }

  lemma FwReceivesNoisy(c: Scene, cd: Codec, b: ByteSys, s: Sys, w: Situation, t: ByteSys)
    requires ValidScene(c) && OnCourse(c, cd, b, s, w) && AllCarried(cd, s.down) && FwReceivesBytes(c, cd, b, t)
    ensures Sound(c, cd, t)
  {
    hide In, Frames, Like, AllCarried, PyReceived, CppReceived, FwHears, Sound, Aftermath;
    LikeGrows(cd, s.down, b.down, []);
    if s.down == [] {
      FwFollows(c, cd, b, s, w, t);
    } else {
      HeadOrCorrupt(cd, s.down, b.down);
      if CppReceived(cd, b.down[0]) == Head(s.down) {
        FwFollows(c, cd, b, s, w, t);
      } else {
        FwMeetsCorrupt(c, b.fw, !Closed(b.plant));
        FwLeaves(c, cd, b, s, w, t);
        AftermathIsSound(c, cd, t);
      }
    }
  }

  lemma FwLeaves(c: Scene, cd: Codec, b: ByteSys, s: Sys, w: Situation, t: ByteSys)
    requires ValidScene(c) && OnCourse(c, cd, b, s, w) && s.down != []
    requires FwGone(t.fw) && t.plant == b.plant && t.up == b.up + Frames(cd, [])
    ensures Aftermath(c, t)
  {
    BothRight(c, s, w);
    OneWayTraffic(c, s, w);
    NoFrames(cd);
    hide In, LikeFrame, PlantRight;
  }

  lemma NoFrames(cd: Codec)
    ensures Frames(cd, []) == []
  {
  }

  lemma SendsNoisy(c: Scene, cd: Codec, b: ByteSys, s: Sys, w: Situation, t: ByteSys)
    requires ValidScene(c) && OnCourse(c, cd, b, s, w)
    requires PlantSendsBytes(c, cd, b, t) || FwConnectsBytes(c, cd, b, t)
    ensures Sound(c, cd, t)
  {
    hide In, Frames, Like, PlantSays, FwSays, Sound;
    if PlantSendsBytes(c, cd, b, t) {
      LikeGrows(cd, s.down, b.down, PlantSays(c, s.plant).1);
      Follows(c, cd, s, w, PlantSend, t);
    } else {
      LikeGrows(cd, s.up, b.up, FwSays(c, s.fw).1);
      Follows(c, cd, s, w, FwConnect, t);
    }
  }

  lemma SoundStays(c: Scene, cd: Codec, b: ByteSys, t: ByteSys)
    requires ValidScene(c) && CarriesScene(cd, c) && Sound(c, cd, b) && NoisyNext(c, cd, b, t)
    ensures Sound(c, cd, t)
  {
    hide In, Like, Hit, CarriesScene, AllCarried, Aftermath, PlantSendsBytes, PlantReceivesBytes, FwConnectsBytes,
         FwReceivesBytes;
    if Aftermath(c, b) {
      AftermathStays(c, cd, b, t);
    } else {
      var s, w :| OnCourse(c, cd, b, s, w);
      InFlightCarried(c, cd, s, w);
      if PlantReceivesBytes(c, cd, b, t) {
        PlantReceivesNoisy(c, cd, b, s, w, t);
      } else if FwReceivesBytes(c, cd, b, t) {
        FwReceivesNoisy(c, cd, b, s, w, t);
      } else if PlantSendsBytes(c, cd, b, t) || FwConnectsBytes(c, cd, b, t) {
        SendsNoisy(c, cd, b, s, w, t);
      } else if Hit(b.up, t.up) && t == b.(up := t.up) {
        HitKeepsLike(cd, s.up, b.up, t.up);
        assert OnCourse(c, cd, t, s, w);
      } else {
        HitKeepsLike(cd, s.down, b.down, t.down);
        assert OnCourse(c, cd, t, s, w);
      }
    }
  }

  lemma {:induction false} NoisySound(c: Scene, cd: Codec, trace: seq<ByteSys>)
    requires ValidScene(c) && CarriesScene(cd, c) && IsNoisyTrace(c, cd, trace)
    ensures Sound(c, cd, trace[|trace| - 1])
  {
    hide NoisyNext, CarriesScene, Sound;
    if |trace| == 1 {
      StartSound(c, cd);
    } else {
      var before := trace[..|trace| - 1];
      NoisySound(c, cd, before);
      SoundStays(c, cd, before[|before| - 1], trace[|trace| - 1]);
    }
  }

  lemma StartSound(c: Scene, cd: Codec)
    requires ValidScene(c)
    ensures Sound(c, cd, ByteStart(c))
  {
    hide In;
    StartsIdle(c);
    assert OnCourse(c, cd, ByteStart(c), Start(c), Idle);
  }

  /** Damage is harmless over whole runs: however many datagrams the channels damage, in every reachable
      state the plant has received reports of the synchronous co-simulation only and applies the duty of
      the latest, the firmware runs in a state of the co-simulation, and a plant that left cleanly misses
      at most the last report. */
  lemma NoisyLockstepSafety(c: Scene, cd: Codec, trace: seq<ByteSys>)
    requires ValidScene(c) && CarriesScene(cd, c) && IsNoisyTrace(c, cd, trace)
    ensures PlantRight(c, trace[|trace| - 1].plant) && FwRight(c, trace[|trace| - 1].fw)
  {
    hide NoisyNext, In, CarriesScene, PlantRight, FwRight, Like;
    NoisySound(c, cd, trace);
    var b := trace[|trace| - 1];
    if !Aftermath(c, b) {
      var s, w :| OnCourse(c, cd, b, s, w);
      BothRight(c, s, w);
    }
  }
}
