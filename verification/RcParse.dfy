/** The streaming SBUS parser: a 64-byte buffer, a greedy scan that skips one byte whenever no frame
    starts there, and the decoding of accepted frames. */
module RcParse {
  import opened Bytes
  import opened Floats
  import opened Ports
  import opened Sbus
  import opened Digits

  const BUF_LEN: nat := 64
  const ARM_CHANNEL: nat := 4

  // ---------------------------------------------------------------------------------------------
  // One frame
  // ---------------------------------------------------------------------------------------------

  function Norm(v: nat): real {
    var span: real := if v >= SBUS_MID then (SBUS_MAX - SBUS_MID) as real else (SBUS_MID - SBUS_MIN) as real;
    var out := (v as real - SBUS_MID as real) / span;
    if out < -1.0 then -1.0 else if out > 1.0 then 1.0 else out
  }

  function Throttle(v: nat): real {
    var out := (v as real - SBUS_MIN as real) / (SBUS_MAX as real - SBUS_MIN as real);
    if !(out > 0.0) then 0.0 else if out > 1.0 then 1.0 else out
  }

  /** All sixteen channels identical: not a plausible command. */
  predicate Stuck(f: seq<Byte>)
    requires |f| == FRAME_LEN
  {
    forall i | 0 <= i < 16 :: Channel(f, i) == Channel(f, 0)
  }

  predicate Accepts(f: seq<Byte>) {
    |f| == FRAME_LEN && f[0] == HEADER && f[23] & 0xF0 == 0 && !Stuck(f)
  }

  /** The sample of an accepted frame; decoding leaves the time stamp alone. */
  function Sample(f: seq<Byte>, tUs: U64): (s: RcSample)
    requires |f| == FRAME_LEN
    ensures s.tUs == tUs
  {
    var failsafe := f[23] & 0x08 != 0;
    RcSample(Fin(Norm(Channel(f, 0))), Fin(Norm(Channel(f, 1))), Fin(Norm(Channel(f, 3))),
             Fin(Throttle(Channel(f, 2))), Channel(f, ARM_CHANNEL) > SBUS_MID, !failsafe, failsafe,
             f[23] & 0x04 != 0, tUs)
  }

  method DecodeFrame(f: seq<Byte>, was: RcSample) returns (ok: bool, out: RcSample)
    requires |f| == FRAME_LEN
    ensures ok <==> Accepts(f)
    ensures out == if ok then Sample(f, was.tUs) else was
  {
    out := was;
    if f[0] != HEADER { return false, was; }
    if f[23] & 0xF0 != 0 { return false, was; }
    var ch: seq<nat> := [];
    for i := 0 to 16
      invariant |ch| == i && forall k | 0 <= k < i :: ch[k] == Channel(f, k)
    {
      ch := ch + [Channel(f, i)];
    }
    var stuck := true;
    for i := 1 to 16
      invariant stuck ==> forall k | 0 <= k < i :: Channel(f, k) == Channel(f, 0)
    {
      if ch[i] != ch[0] { stuck := false; break; }
    }
    if stuck { return false, was; }
    var failsafe := f[23] & 0x08 != 0;
    out := RcSample(Fin(Norm(ch[0])), Fin(Norm(ch[1])), Fin(Norm(ch[3])), Fin(Throttle(ch[2])),
                    ch[ARM_CHANNEL] > SBUS_MID, !failsafe, failsafe, f[23] & 0x04 != 0, was.tUs);
    return true, out;
  }

  // ---------------------------------------------------------------------------------------------
  // The stream
  // ---------------------------------------------------------------------------------------------

  datatype Scanned = Scanned(frames: seq<seq<Byte>>, rest: seq<Byte>)

  /** One greedy pass over a whole byte string. */
  function Scan(s: seq<Byte>): (r: Scanned)
    ensures |r.rest| < FRAME_LEN
    ensures forall k | 0 <= k < |r.frames| :: |r.frames[k]| == FRAME_LEN && Accepts(r.frames[k])
    decreases |s|
  {
    if |s| < FRAME_LEN then Scanned([], s)
    else if Accepts(s[..FRAME_LEN]) then
      var r := Scan(s[FRAME_LEN..]);
      Scanned([s[..FRAME_LEN]] + r.frames, r.rest)
    else Scan(s[1..])
  }

  datatype ParserState = ParserState(pending: seq<Byte>, frames: nat)

  const CLEARED := ParserState([], 0)

  /** One call of `feed`: the new state and the frames it accepted, in order. */
  function FeedStep(s: ParserState, chunk: seq<Byte>): (r: (ParserState, seq<seq<Byte>>))
    ensures forall k | 0 <= k < |r.1| :: |r.1[k]| == FRAME_LEN && Accepts(r.1[k])
  {
    if |chunk| == 0 || |chunk| > BUF_LEN then (CLEARED, [])
    else
      var s0 := if |s.pending| + |chunk| > BUF_LEN then CLEARED else s;
      var r := Scan(s0.pending + chunk);
      (ParserState(r.rest, s0.frames + |r.frames|), r.frames)
  }

  /** The caller receives the sample of the last accepted frame only. */
  function Delivered(frames: seq<seq<Byte>>, was: RcSample): RcSample
    requires forall k | 0 <= k < |frames| :: |frames[k]| == FRAME_LEN
  {
    if frames == [] then was else Sample(frames[|frames| - 1], was.tUs)
  }

  class SbusParser {
    const buf: array<Byte>
    var n: nat
    var frames: nat

    ghost predicate Valid()
      reads this
    {
      buf.Length == BUF_LEN && n <= BUF_LEN
    }

    ghost function State(): ParserState
      requires Valid()
      reads this, buf
    {
      ParserState(buf[..n], frames)
    }

    constructor ()
      ensures Valid() && fresh(buf) && State() == CLEARED
    {
      buf := new Byte[64];
      n, frames := 0, 0;
    }

    method Reset()
      requires Valid()
      modifies this, buf
      ensures Valid() && State() == CLEARED
      ensures forall k | 0 <= k < BUF_LEN :: buf[k] == 0
    {
      n, frames := 0, 0;
      forall k | 0 <= k < BUF_LEN { buf[k] := 0; }
    }

    method Feed(data: seq<Byte>, len: int, was: RcSample) returns (decoded: bool, out: RcSample)
      requires Valid() && len <= |data|
      modifies this, buf
      ensures Valid()
      ensures var (next, accepted) := FeedStep(old(State()), if len < 0 then [] else data[..len]);
              State() == next && (decoded <==> accepted != []) && out == Delivered(accepted, was)
    {
      hide Accepts, Delivered, Scan;
      if len <= 0 || len > BUF_LEN {
        Reset();
        EmptyDelivery(was);
        return false, was;
      }
      if n + len > BUF_LEN {
        Reset();
      }
      Append(data, len);
      var i;
      decoded, out, i := ScanBuffer(was);
      if i > 0 {
        Compact(i);
      }
    }

    /** The greedy scan: i is where the unread tail starts. */
    method ScanBuffer(was: RcSample) returns (decoded: bool, out: RcSample, i: nat)
      requires Valid()
      modifies this`frames
      ensures Valid() && i <= n && Scan(buf[..n]).rest == buf[i..n]
      ensures frames == old(frames) + |Scan(buf[..n]).frames|
      ensures (decoded <==> Scan(buf[..n]).frames != []) && out == Delivered(Scan(buf[..n]).frames, was)
    {
      hide Accepts, Sample, Scan, ScannedUpTo;
      decoded, out, i := false, was, 0;
      ghost var all := buf[..n];
      ghost var accepted: seq<seq<Byte>> := [];
      StartOfScan(all);
      while n - i >= FRAME_LEN
        invariant i <= n <= BUF_LEN && buf[..n] == all
        invariant forall k | 0 <= k < |accepted| :: |accepted[k]| == FRAME_LEN
        invariant ScannedUpTo(all, i, accepted)
        invariant frames == old(frames) + |accepted|
        invariant (decoded <==> accepted != []) && out == Delivered(accepted, was)
        invariant out.tUs == was.tUs
        decreases n - i
      {
        assert buf[..n][i..i + FRAME_LEN] == buf[i..i + FRAME_LEN];
        var window := buf[i..i + FRAME_LEN];
        assert window == all[i..i + FRAME_LEN];
        Advance(all, i, accepted);
        var ok := false;
        if buf[i] == HEADER {
          ok, out := DecodeFrame(window, out);
        } else {
          NoHeader(window);
        }
        if ok {
          accepted := accepted + [window];
          decoded := true;
          frames := frames + 1;
          i := i + FRAME_LEN;
        } else {
          i := i + 1;
        }
      }
      EndOfScan(all, i, accepted);
      assert all[i..] == buf[i..n];
    }

    /** The memmove of the unread tail to the front. */
    method Compact(i: nat)
      requires Valid() && i <= n
      modifies this`n, buf
      ensures Valid() && buf[..n] == old(buf[i..n])
    {
      forall k | 0 <= k < n - i { buf[k] := buf[i + k]; }
      n := n - i;
    }

    method Append(data: seq<Byte>, len: nat)
      requires Valid() && len <= |data| && n + len <= BUF_LEN
      modifies this`n, buf
      ensures Valid() && buf[..n] == old(buf[..n]) + data[..len]
    {
      ghost var was := buf[..n];
      for i := 0 to len
        invariant Valid() && n == old(n) + i
        invariant buf[..n] == was + data[..i]
      {
        buf[n] := data[i];
        n := n + 1;
        assert buf[..n] == buf[..n - 1] + [data[i]];
      }
    }
  }

  /** The frames before position i, and the scan of what follows, make up the whole scan. */
  ghost predicate ScannedUpTo(all: seq<Byte>, i: nat, accepted: seq<seq<Byte>>)
    requires i <= |all|
  {
    Scan(all) == Scanned(accepted + Scan(all[i..]).frames, Scan(all[i..]).rest)
  }

  lemma StartOfScan(all: seq<Byte>)
    ensures ScannedUpTo(all, 0, [])
  {
    assert all[0..] == all;
  }

  lemma Advance(all: seq<Byte>, i: nat, accepted: seq<seq<Byte>>)
    requires i + FRAME_LEN <= |all| && ScannedUpTo(all, i, accepted)
    ensures var window := all[i..i + FRAME_LEN];
            if Accepts(window) then ScannedUpTo(all, i + FRAME_LEN, accepted + [window])
            else ScannedUpTo(all, i + 1, accepted)
  {
    hide Accepts;
    var left := all[i..];
    assert left[..FRAME_LEN] == all[i..i + FRAME_LEN];
    assert left[1..] == all[i + 1..] && left[FRAME_LEN..] == all[i + FRAME_LEN..];
    assert accepted + ([left[..FRAME_LEN]] + Scan(left[FRAME_LEN..]).frames)
        == accepted + [left[..FRAME_LEN]] + Scan(left[FRAME_LEN..]).frames;
  }

  lemma EndOfScan(all: seq<Byte>, i: nat, accepted: seq<seq<Byte>>)
    requires i <= |all| < i + FRAME_LEN && ScannedUpTo(all, i, accepted)
    ensures Scan(all) == Scanned(accepted, all[i..])
  {
    assert accepted + [] == accepted;
  }

  lemma NoHeader(f: seq<Byte>)
    requires |f| == FRAME_LEN && f[0] != HEADER
    ensures !Accepts(f)
  {
  }

  lemma EmptyDelivery(was: RcSample)
    ensures Delivered([], was) == was
  {
  }

  // ---------------------------------------------------------------------------------------------
  // Chunk independence
  // ---------------------------------------------------------------------------------------------

  /** Scanning can stop and resume anywhere, keeping only the unread tail. */
  lemma {:induction false} ScanConcat(a: seq<Byte>, b: seq<Byte>)
    ensures var (ra, rab) := (Scan(a), Scan(a + b));
            var rb := Scan(ra.rest + b);
            rab == Scanned(ra.frames + rb.frames, rb.rest)
    decreases |a|
  {
    hide Accepts;
    if |a| < FRAME_LEN {
    } else if Accepts(a[..FRAME_LEN]) {
      assert (a + b)[..FRAME_LEN] == a[..FRAME_LEN] && (a + b)[FRAME_LEN..] == a[FRAME_LEN..] + b;
      ScanConcat(a[FRAME_LEN..], b);
    } else {
      assert (a + b)[..FRAME_LEN] == a[..FRAME_LEN] && (a + b)[1..] == a[1..] + b;
      ScanConcat(a[1..], b);
    }
  }

  ghost function Flatten(chunks: seq<seq<Byte>>): seq<Byte> {
    if chunks == [] then [] else chunks[0] + Flatten(chunks[1..])
  }

  ghost function FeedAll(s: ParserState, chunks: seq<seq<Byte>>): (ParserState, seq<seq<Byte>>)
    decreases |chunks|
  {
    if chunks == [] then (s, [])
    else
      var (s1, f1) := FeedStep(s, chunks[0]);
      var (s2, f2) := FeedAll(s1, chunks[1..]);
      (s2, f1 + f2)
  }

  /** The bound a transport has to keep: a full tail of 24 bytes and a chunk still fit the buffer. */
  ghost predicate Bounded(chunks: seq<seq<Byte>>) {
    forall k | 0 <= k < |chunks| :: 1 <= |chunks[k]| <= BUF_LEN - (FRAME_LEN - 1)
  }

  /** What a call of `feed` would do with an unlimited buffer: resume the scan of everything pending. */
  function Resumed(s: ParserState, chunk: seq<Byte>): (ParserState, seq<seq<Byte>>) {
    var r := Scan(s.pending + chunk);
    (ParserState(r.rest, s.frames + |r.frames|), r.frames)
  }

  lemma FeedResumes(s: ParserState, chunk: seq<Byte>)
    requires |s.pending| < FRAME_LEN && 1 <= |chunk| <= BUF_LEN - (FRAME_LEN - 1)
    ensures FeedStep(s, chunk) == Resumed(s, chunk) && |Resumed(s, chunk).0.pending| < FRAME_LEN
  {
    hide Scan;
  }

  lemma {:induction false} FeedAllIsScan(s: ParserState, chunks: seq<seq<Byte>>)
    requires Bounded(chunks) && |s.pending| < FRAME_LEN
    ensures var r := Scan(s.pending + Flatten(chunks));
            FeedAll(s, chunks) == (ParserState(r.rest, s.frames + |r.frames|), r.frames)
    decreases |chunks|
  {
    hide FeedStep;
    if chunks == [] {
      assert s.pending + Flatten(chunks) == s.pending;
    } else {
      hide Scan;
      var (s1, f1) := FeedStep(s, chunks[0]);
      FeedResumes(s, chunks[0]);
      FeedAllIsScan(s1, chunks[1..]);
      ScanConcat(s.pending + chunks[0], Flatten(chunks[1..]));
      assert s.pending + Flatten(chunks) == s.pending + chunks[0] + Flatten(chunks[1..]);
    }
  }

  /** Chunk independence: however a byte stream is cut into chunks of 1 to 40 bytes, feeding them to
      a cleared parser accepts the frames, counts them and leaves the tail of one scan of it all. */
  lemma ChunkIndependence(chunks: seq<seq<Byte>>)
    requires Bounded(chunks)
    ensures var r := Scan(Flatten(chunks));
            FeedAll(CLEARED, chunks) == (ParserState(r.rest, |r.frames|), r.frames)
  {
    FeedAllIsScan(CLEARED, chunks);
    assert [] + Flatten(chunks) == Flatten(chunks);
  }

  // ---------------------------------------------------------------------------------------------
  // Encoded streams
  // ---------------------------------------------------------------------------------------------

  lemma {:induction false} JunkScan(junk: seq<Byte>)
    requires HEADER !in junk
    ensures Scan(junk).frames == []
    decreases |junk|
  {
    if |junk| >= FRAME_LEN {
      assert junk[0] in junk && HEADER !in junk[1..];
      JunkScan(junk[1..]);
    }
  }

  predicate FrameStarts(s: seq<Byte>, i: nat) {
    i + FRAME_LEN <= |s| && Accepts(s[i..i + FRAME_LEN])
  }

  /** No acceptable frame starts inside the first n bytes of s. */
  ghost predicate NoFrameIn(s: seq<Byte>, n: nat) {
    forall i | 0 <= i < n :: !FrameStarts(s, i)
  }

  /** Bytes in which no frame starts are skipped one by one. */
  lemma {:induction false} SkipJunk(junk: seq<Byte>, s: seq<Byte>)
    requires NoFrameIn(junk + s, |junk|) && |s| >= FRAME_LEN
    ensures Scan(junk + s) == Scan(s)
  {
    hide Accepts;
    if junk == [] {
      assert junk + s == s;
    } else {
      var (all, rest) := (junk + s, junk[1..] + s);
      assert all[0..FRAME_LEN] == all[..FRAME_LEN] && !FrameStarts(all, 0);
      assert all[1..] == rest;
      forall i | 0 <= i < |junk[1..]|
        ensures !FrameStarts(rest, i)
      {
        assert !FrameStarts(all, i + 1);
        assert i + FRAME_LEN <= |rest| ==> rest[i..i + FRAME_LEN] == all[i + 1..i + 1 + FRAME_LEN];
      }
      SkipJunk(junk[1..], s);
    }
  }

  lemma HeaderFreeJunk(junk: seq<Byte>, s: seq<Byte>)
    requires HEADER !in junk
    ensures NoFrameIn(junk + s, |junk|)
  {
    var all := junk + s;
    forall i | 0 <= i < |junk|
      ensures !FrameStarts(all, i)
    {
      assert junk[i] in junk && all[i] == junk[i];
    }
  }

  lemma {:induction false} ScanFrames(fs: seq<seq<Byte>>)
    requires forall k | 0 <= k < |fs| :: Accepts(fs[k])
    ensures Scan(Flatten(fs)) == Scanned(fs, [])
  {
    if fs != [] {
      var s := Flatten(fs);
      assert s[..FRAME_LEN] == fs[0] && s[FRAME_LEN..] == Flatten(fs[1..]);
      ScanFrames(fs[1..]);
      assert fs == [fs[0]] + fs[1..];
    }
  }

  /** Resynchronisation: frames behind junk in which no acceptable frame starts all come out, in order,
      with nothing left over, under every chunking of the stream into pieces of at most 40 bytes. The
      junk may hold header bytes, and even the beginnings of frames. */
  lemma Resynchronises(junk: seq<Byte>, fs: seq<seq<Byte>>, chunks: seq<seq<Byte>>)
    requires fs != [] && forall k | 0 <= k < |fs| :: Accepts(fs[k])
    requires NoFrameIn(junk + Flatten(fs), |junk|)
    requires Bounded(chunks) && Flatten(chunks) == junk + Flatten(fs)
    ensures FeedAll(CLEARED, chunks) == (ParserState([], |fs|), fs)
  {
    ChunkIndependence(chunks);
    SkipJunk(junk, Flatten(fs));
    ScanFrames(fs);
  }

  /** The instance for junk without header bytes. */
  lemma StreamDecoded(junk: seq<Byte>, fs: seq<seq<Byte>>, chunks: seq<seq<Byte>>)
    requires HEADER !in junk && fs != [] && forall k | 0 <= k < |fs| :: Accepts(fs[k])
    requires Bounded(chunks) && Flatten(chunks) == junk + Flatten(fs)
    ensures FeedAll(CLEARED, chunks) == (ParserState([], |fs|), fs)
  {
    HeaderFreeJunk(junk, Flatten(fs));
    Resynchronises(junk, fs, chunks);
  }

  function Zeros(n: nat): (z: seq<Byte>)
    ensures |z| == n && forall k | 0 <= k < n :: z[k] == 0
  {
    seq(n, _ => 0 as Byte)
  }

  lemma ZeroChannel(f: seq<Byte>, i: nat)
    requires |f| == FRAME_LEN && i < 16 && forall k | 1 <= k < FRAME_LEN :: f[k] == 0
    ensures Channel(f, i) == 0
  {
    hide RawInt, At, Pow2, ToInt;
    var (k, s) := At(i);
    RawValue(f, i, k, s);
    ZeroByte();
    ZeroQuotient(Pow2(s));
  }

  lemma ZeroByte()
    ensures ToInt(0) == 0
  {
  }

  lemma ZeroQuotient(p: int)
    requires p > 0
    ensures 0 / p % 2048 == 0
  {
  }

  /** A header followed by nothing but zeros is a stuck frame. */
  lemma ZeroFrameRejected(f: seq<Byte>)
    requires |f| == FRAME_LEN && forall k | 1 <= k < FRAME_LEN :: f[k] == 0
    ensures !Accepts(f)
  {
    hide Channel;
    forall i | 0 <= i < 16
      ensures Channel(f, i) == Channel(f, 0)
    {
      ZeroChannel(f, i);
      ZeroChannel(f, 0);
    }
  }

  lemma AlmostZeros(p: Byte)
    ensures Scan([p] + Zeros(40)).frames == []
  {
    hide Accepts;
    var b := [p] + Zeros(40);
    ZeroFrameRejected(b[..FRAME_LEN]);
    assert b[1..] == Zeros(40);
    JunkScan(Zeros(40));
  }

  /** The bound is needed: 24 bytes of any frame and then a chunk of 41 overflow the buffer, and the
      reset loses a frame that one scan of the same bytes finds. */
  lemma OverflowLosesFrame(f: seq<Byte>)
    requires Accepts(f)
    ensures var chunks := [f[..24], f[24..] + Zeros(40)];
            |chunks[1]| == 41 && FeedAll(CLEARED, chunks).1 == [] && Scan(Flatten(chunks)).frames == [f]
  {
    hide Accepts;
    assert |f| == FRAME_LEN by { FrameLength(f); }
    var (a, b) := (f[..24], f[24..] + Zeros(40));
    assert f[24..] == [f[24]];
    AlmostZeros(f[24]);
    TwoFeeds(a, b);
    var (chunks, s) := ([a, b], f + Zeros(40));
    assert Flatten(chunks) == s by {
      assert chunks[1..] == [b] && [b][1..] == [];
      assert Flatten([b]) == b + Flatten([]) == b;
    }
    assert s[..FRAME_LEN] == f && s[FRAME_LEN..] == Zeros(40);
    JunkScan(Zeros(40));
  }

  lemma FrameLength(f: seq<Byte>)
    requires Accepts(f)
    ensures |f| == FRAME_LEN
  {
  }

  /** A tail of 24 bytes and a chunk of 41 with no frame in it. */
  lemma TwoFeeds(a: seq<Byte>, b: seq<Byte>)
    requires |a| == 24 && |b| == 41 && Scan(b).frames == []
    ensures FeedAll(CLEARED, [a, b]).1 == []
  {
    hide Accepts;
    assert [] + a == a && [] + b == b;
    var s1 := ParserState(a, 0);
    assert FeedStep(CLEARED, a) == (s1, []);
    assert FeedStep(s1, b).1 == [];
    assert [a, b][1..] == [b] && [b][1..] == [];
    assert FeedAll(s1, [b]).1 == FeedStep(s1, b).1 + FeedAll(FeedStep(s1, b).0, []).1;
  }

  ghost predicate ChunksUpTo(chunks: seq<seq<Byte>>, n: nat) {
    forall k | 0 <= k < |chunks| :: 1 <= |chunks[k]| <= n
  }

  /** Feeding the chunks to a cleared parser accepts the frames of one scan of them all. */
  ghost predicate LosesNothing(chunks: seq<seq<Byte>>) {
    FeedAll(CLEARED, chunks).1 == Scan(Flatten(chunks)).frames
  }

  /** The exact bound on a transport: chunks of up to n bytes can be cut anywhere without losing or
      inventing a frame if and only if n is at most 40. */
  lemma ChunkBoundIff(n: nat)
    ensures (forall chunks | ChunksUpTo(chunks, n) :: LosesNothing(chunks)) <==> n <= BUF_LEN - (FRAME_LEN - 1)
  {
    hide FeedAll, Scan, Flatten;
    if n <= BUF_LEN - (FRAME_LEN - 1) {
      forall chunks | ChunksUpTo(chunks, n)
        ensures LosesNothing(chunks)
      {
        ChunkIndependence(chunks);
      }
    } else {
      var chunks := LosingChunks();
      assert ChunksUpTo(chunks, n);
    }
  }

  lemma LosingChunks() returns (chunks: seq<seq<Byte>>)
    ensures |chunks| == 2 && |chunks[0]| == 24 && |chunks[1]| == 41 && !LosesNothing(chunks)
  {
    hide FeedAll, Scan, Flatten, Accepts;
    var f := EncodeFrame([0, 1], 0);
    assert Field([0, 1], 1) != Field([0, 1], 0);
    EncodedAccepted([0, 1], 0);
    OverflowLosesFrame(f);
    chunks := [f[..24], f[24..] + Zeros(40)];
  }

  /** The exact condition of one call: once a frame has been counted, a call resumes the scan if and only
      if the chunk is not empty and fits the buffer behind the tail. */
  lemma FeedResumesIff(s: ParserState, chunk: seq<Byte>)
    requires |s.pending| < FRAME_LEN && s.frames > 0
    ensures FeedStep(s, chunk) == Resumed(s, chunk) <==> 1 <= |chunk| && |s.pending| + |chunk| <= BUF_LEN
  {
    hide Scan;
  }

  /** What a call that cannot resume does instead: an empty or oversized chunk clears the parser, frame count
      included; one that does not fit behind the tail is scanned on its own from a cleared parser. */
  lemma FeedResets(s: ParserState, chunk: seq<Byte>)
    ensures |chunk| == 0 || |chunk| > 64 ==> FeedStep(s, chunk) == (ParserState([], 0), [])
    ensures 1 <= |chunk| <= 64 && |s.pending| + |chunk| > 64 ==>
              var r := Scan(chunk); FeedStep(s, chunk) == (ParserState(r.rest, |r.frames|), r.frames)
  {
    hide Scan;
    assert [] + chunk == chunk;
  }

  lemma HighNibble(b: Byte)
    ensures b & 0xF0 == 0 <==> ToInt(b) < 16
  {
  }

  lemma FlagBits(b: Byte)
    requires b < 16
    ensures b & 0x08 != 0 <==> ToInt(b) >= 8
    ensures b & 0x04 != 0 <==> ToInt(b) % 8 >= 4
  {
    ByteCases(b);
  }

  lemma AcceptedFlags(f: seq<Byte>)
    requires Accepts(f)
    ensures f[23] & 0x08 != 0 <==> ToInt(f[23]) >= 8
    ensures f[23] & 0x04 != 0 <==> ToInt(f[23]) % 8 >= 4
  {
    hide Channel;
    SmallByte(f[23]);
    FlagBits(f[23]);
  }

  lemma ByteCases(b: Byte)
    requires b < 16
    ensures b == 0 || b == 1 || b == 2 || b == 3 || b == 4 || b == 5 || b == 6 || b == 7
            || b == 8 || b == 9 || b == 10 || b == 11 || b == 12 || b == 13 || b == 14 || b == 15
  {
  }

  /** An encoded frame is accepted exactly when its sixteen kept channels are not all equal. */
  lemma EncodedAccepted(channels: seq<int>, flags: int)
    ensures Accepts(EncodeFrame(channels, flags))
            <==> exists i :: 0 <= i < 16 && Field(channels, i) != Field(channels, 0)
  {
    hide Channel;
    RoundTrip(channels, flags);
    ByteOfInt(flags % 16);
    HighNibble(ToByte(flags % 16));
  }

  /** What the flight code sees of an encoded frame. */
  lemma SampleOfEncoded(channels: seq<int>, flags: int, tUs: U64)
    ensures var s := Sample(EncodeFrame(channels, flags), tUs);
            && s.roll == Fin(Norm(Field(channels, 0))) && s.pitch == Fin(Norm(Field(channels, 1)))
            && s.throttle == Fin(Throttle(Field(channels, 2))) && s.yaw == Fin(Norm(Field(channels, 3)))
            && (s.armedSwitch <==> Field(channels, 4) > SBUS_MID)
            && (s.rxFailsafe <==> flags % 16 >= 8) && s.frameOk == !s.rxFailsafe
            && (s.frameLost <==> flags % 8 >= 4)
  {
    hide Channel, Norm, Throttle, Field, EncodeFrame;
    var b := ToByte(flags % 16);
    RoundTrip(channels, flags);
    ByteOfInt(flags % 16);
    HighNibble(b);
    SmallByte(b);
    FlagBits(b);
    FlagArithmetic(flags);
  }

  lemma FlagArithmetic(flags: int)
    ensures flags % 16 % 8 == flags % 8
  {
  }

  lemma SmallByte(b: Byte)
    requires b & 0xF0 == 0
    ensures b < 16
  {
  }

  // ---------------------------------------------------------------------------------------------
  // Stick resolution
  // ---------------------------------------------------------------------------------------------

  /** Rounding to the nearest integer, ties to even. */
  function RoundHalfEven(x: real): int {
    var f := x.Floor;
    var d := x - f as real;
    if d < 0.5 then f else if d > 0.5 then f + 1 else if f % 2 == 0 then f else f + 1
  }

  /** Where a stick in [-1, 1] lies on the channel scale, before rounding. */
  function StickPosition(c: real): real {
    if c >= 0.0 then SBUS_MID as real + c * (SBUS_MAX - SBUS_MID) as real
    else SBUS_MID as real + c * (SBUS_MID - SBUS_MIN) as real
  }

  function ThrottlePosition(c: real): real {
    SBUS_MIN as real + c * (SBUS_MAX - SBUS_MIN) as real
  }

  function StickToSbus(v: real): int {
    RoundHalfEven(StickPosition(Max(-1.0, Min(1.0, v))))
  }

  function ThrottleToSbus(t: real): int {
    RoundHalfEven(ThrottlePosition(Max(0.0, Min(1.0, t))))
  }

  lemma RoundNearest(x: real)
    ensures Abs(RoundHalfEven(x) as real - x) <= 0.5
  {
  }

  /** The Python stick map and the C++ normalisation invert each other up to half a step. */
  lemma StickRoundTrip(v: real)
    ensures SBUS_MIN <= StickToSbus(v) <= SBUS_MAX
    ensures Abs(Norm(StickToSbus(v)) - Max(-1.0, Min(1.0, v))) <= 1.0 / 1638.0
  {
    hide Norm, RoundHalfEven, StickPosition;
    var c := Max(-1.0, Min(1.0, v));
    RoundNearest(StickPosition(c));
    StickPositionIs(c);
    if c >= 0.0 {
      NormUpper(StickToSbus(v), c);
    } else {
      NormLower(StickToSbus(v), c);
    }
  }

  lemma StickPositionIs(c: real)
    ensures StickPosition(c) == 992.0 + c * (if c >= 0.0 then 819.0 else 820.0)
  {
  }

  lemma NormUpper(k: int, c: real)
    requires 0.0 <= c <= 1.0 && Abs(k as real - (992.0 + c * 819.0)) <= 0.5
    ensures 992 <= k <= 1811 && Abs(Norm(k) - c) <= 1.0 / 1638.0
  {
    hide Norm;
    assert 992 <= k <= 1811;
    NormLaw(k);
  }

  lemma NormLower(k: int, c: real)
    requires -1.0 <= c < 0.0 && Abs(k as real - (992.0 + c * 820.0)) <= 0.5
    ensures 172 <= k <= 992 && Abs(Norm(k) - c) <= 1.0 / 1638.0
  {
    hide Norm;
    assert 172 <= k <= 992;
    NormLaw(k);
  }

  lemma ThrottleRoundTrip(t: real)
    ensures SBUS_MIN <= ThrottleToSbus(t) <= SBUS_MAX
    ensures Abs(Throttle(ThrottleToSbus(t)) - Max(0.0, Min(1.0, t))) <= 1.0 / 3278.0
  {
    hide Throttle, RoundHalfEven;
    var c := Max(0.0, Min(1.0, t));
    RoundNearest(ThrottlePosition(c));
    ThrottleNear(ThrottleToSbus(t), c);
  }

  lemma ThrottleNear(k: int, c: real)
    requires 0.0 <= c <= 1.0 && Abs(k as real - ThrottlePosition(c)) <= 0.5
    ensures 172 <= k <= 1811 && Abs(Throttle(k) - c) <= 1.0 / 3278.0
  {
    assert ThrottlePosition(c) == 172.0 + c * 1639.0;
    hide Throttle, ThrottlePosition;
    assert 172 <= k <= 1811;
    ThrottleLaw(k);
  }

  /** Which 25 bytes make a frame: header 0x0F, nothing in the upper half of the flags byte, and not all
      sixteen channels alike. */
  lemma AcceptsIff(f: seq<Byte>)
    ensures Accepts(f) <==> |f| == 25 && ToInt(f[0]) == 15 && ToInt(f[23]) < 16
                            && exists i :: 0 <= i < 16 && Channel(f, i) != Channel(f, 0)
  {
    hide Channel;
    if |f| == 25 {
      HighNibble(f[23]);
      HeaderValue(f[0]);
      StuckIff(f);
    }
  }

  lemma StuckIff(f: seq<Byte>)
    requires |f| == FRAME_LEN
    ensures Stuck(f) <==> !exists i :: 0 <= i < 16 && Channel(f, i) != Channel(f, 0)
  {
    hide Channel;
  }

  lemma HeaderValue(b: Byte)
    ensures b == HEADER <==> ToInt(b) == 15
  {
  }

  /** The stick scale: 992 is the middle, 172 and 1811 are the ends, straight lines between them, and
      nothing beyond. */
  lemma NormLaw(v: nat)
    ensures v <= 172 ==> Norm(v) == -1.0
    ensures 172 <= v <= 992 ==> 820.0 * Norm(v) == v as real - 992.0
    ensures 992 <= v <= 1811 ==> 819.0 * Norm(v) == v as real - 992.0
    ensures v >= 1811 ==> Norm(v) == 1.0
  {
  }

  lemma ThrottleLaw(v: nat)
    ensures v <= 172 ==> Throttle(v) == 0.0
    ensures 172 <= v <= 1811 ==> 1639.0 * Throttle(v) == v as real - 172.0
    ensures v >= 1811 ==> Throttle(v) == 1.0
  {
  }
}
