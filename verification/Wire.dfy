/** Message framing: a 14-byte packed header, the payload, and a CRC over both with the CRC field
    read as zero. The C++ and the Python ends are modelled side by side. */
module Wire {
  import opened Bytes
  import opened Crc

  const HDR_SIZE: nat := 14
  const MAGIC_LOW: Byte := 0x4D
  const MAGIC_HIGH: Byte := 0x53
  const VERSION: Byte := 1

  /** Header fields; the two magic bytes stand for the 16-bit little-endian magic. */
  datatype Hdr = Hdr(magicLow: Byte, magicHigh: Byte, ver: Byte, typ: Byte, len: nat, seqNo: Word, crc: Word)

  function Le32(x: Word): (bs: seq<Byte>)
    ensures |bs| == 4
  {
    [(x & 0xFF) as Byte, ((x >> 8) & 0xFF) as Byte, ((x >> 16) & 0xFF) as Byte, ((x >> 24) & 0xFF) as Byte]
  }

  function FromLe32(a: Byte, b: Byte, c: Byte, d: Byte): Word {
    LittleEndian([a, b, c, d])
  }

  lemma FourBytes(a: Byte, b: Byte, c: Byte, d: Byte)
    ensures FromLe32(a, b, c, d)
         == Xor(Widen(a), ShiftUp(Xor(Widen(b), ShiftUp(Xor(Widen(c), ShiftUp(Widen(d)))))))
  {
    hide Xor, Widen, ShiftUp, LittleEndian;
    LastByte(d);
    FirstByte(c, [d]);
    FirstByte(b, [c, d]);
    FirstByte(a, [b, c, d]);
    assert [a] + [b, c, d] == [a, b, c, d] && [b] + [c, d] == [b, c, d] && [c] + [d] == [c, d];
  }

  lemma LastByte(d: Byte)
    ensures LittleEndian([d]) == Widen(d)
  {
    assert LittleEndian([d][1..]) == 0;
    assert Xor(Widen(d), ShiftUp(0)) == Widen(d);
  }

  lemma FirstByte(p: Byte, ps: seq<Byte>)
    requires |ps| <= 3
    ensures LittleEndian([p] + ps) == Xor(Widen(p), ShiftUp(LittleEndian(ps)))
  {
    hide Xor, Widen, ShiftUp;
    assert ([p] + ps)[1..] == ps;
  }

  lemma WordFromBytes(x: Word)
    ensures var bs := Le32(x);
            Xor(Widen(bs[0]), ShiftUp(Xor(Widen(bs[1]), ShiftUp(Xor(Widen(bs[2]), ShiftUp(Widen(bs[3]))))))) == x
  {
  }

  lemma Le32RoundTrip(x: Word)
    ensures var bs := Le32(x); FromLe32(bs[0], bs[1], bs[2], bs[3]) == x
  {
    hide Le32, FromLe32;
    var bs := Le32(x);
    FourBytes(bs[0], bs[1], bs[2], bs[3]);
    WordFromBytes(x);
  }

  lemma FromLe32Injective(a: Byte, b: Byte, c: Byte, d: Byte, e: Byte, f: Byte, g: Byte, h: Byte)
    ensures FromLe32(a, b, c, d) == FromLe32(e, f, g, h) <==> a == e && b == f && c == g && d == h
  {
    hide LittleEndian;
    var (s, t) := ([a, b, c, d], [e, f, g, h]);
    if LittleEndian(s) == LittleEndian(t) {
      LittleEndianInjective(s, t);
      assert s[0] == t[0] && s[1] == t[1] && s[2] == t[2] && s[3] == t[3];
    }
  }

  lemma FromLe32RoundTrip(a: Byte, b: Byte, c: Byte, d: Byte)
    ensures Le32(FromLe32(a, b, c, d)) == [a, b, c, d]
  {
    hide Le32, FromLe32;
    var bs := Le32(FromLe32(a, b, c, d));
    Le32RoundTrip(FromLe32(a, b, c, d));
    FromLe32Injective(bs[0], bs[1], bs[2], bs[3], a, b, c, d);
  }

  /** Everything before the CRC field; the length field keeps the low 16 bits. */
  function Prefix(h: Hdr): (bs: seq<Byte>)
    ensures |bs| == 10
  {
    [h.magicLow, h.magicHigh, h.ver, h.typ, ToByte(h.len % 256), ToByte(h.len / 256 % 256)] + Le32(h.seqNo)
  }

  /** The packed header. */
  function Encode(h: Hdr): (bs: seq<Byte>)
    ensures |bs| == HDR_SIZE
  {
    Prefix(h) + Le32(h.crc)
  }

  function Parse(buf: seq<Byte>): Hdr
    requires |buf| >= HDR_SIZE
  {
    Hdr(buf[0], buf[1], buf[2], buf[3], ToInt(buf[4]) + 256 * ToInt(buf[5]),
        FromLe32(buf[6], buf[7], buf[8], buf[9]), FromLe32(buf[10], buf[11], buf[12], buf[13]))
  }

  lemma SplitLength(n: nat)
    ensures n % 256 + 256 * (n / 256 % 256) == n % 65536
  {
    var q := n / 256;
    assert n == 65536 * (q / 256) + (256 * (q % 256) + n % 256);
  }

  lemma ParseEncode(h: Hdr, rest: seq<Byte>)
    ensures Parse(Encode(h) + rest) == h.(len := h.len % 65536)
  {
    hide Le32, FromLe32, ToByte, ToInt;
    Le32RoundTrip(h.seqNo);
    Le32RoundTrip(h.crc);
    ByteOfInt(h.len % 256);
    ByteOfInt(h.len / 256 % 256);
    SplitLength(h.len);
  }

  lemma EncodeParse(buf: seq<Byte>)
    requires |buf| >= HDR_SIZE
    ensures Encode(Parse(buf)) == buf[..HDR_SIZE]
  {
    hide Le32, FromLe32, ToByte, ToInt;
    FromLe32RoundTrip(buf[6], buf[7], buf[8], buf[9]);
    FromLe32RoundTrip(buf[10], buf[11], buf[12], buf[13]);
    IntOfByte(buf[4]);
    IntOfByte(buf[5]);
    var len := Parse(buf).len;
    assert len % 256 == ToInt(buf[4]) && len / 256 % 256 == ToInt(buf[5]);
  }

  /** The header bytes with the CRC field cleared. */
  function ZeroCrc(hdr: seq<Byte>): (z: seq<Byte>)
    requires |hdr| >= HDR_SIZE
    ensures |z| == HDR_SIZE
  {
    hdr[..10] + [0, 0, 0, 0]
  }

  lemma ZeroBytes()
    ensures Le32(0) == [0, 0, 0, 0]
  {
  }

  lemma ZeroCrcEncode(h: Hdr)
    ensures Encode(h.(crc := 0)) == ZeroCrc(Encode(h))
  {
    hide Le32, ToByte;
    ZeroBytes();
  }

  /** The bytes of a packed message. */
  function Packed(typ: Byte, seqNo: Word, payload: seq<Byte>): (m: seq<Byte>)
    ensures |m| == HDR_SIZE + |payload|
  {
    var h := Hdr(MAGIC_LOW, MAGIC_HIGH, VERSION, typ, |payload|, seqNo, 0);
    Encode(h.(crc := Crc32(Encode(h) + payload))) + payload
  }

  /** `packMsg`: the header goes in with a zero CRC, the payload behind it, the CRC last. */
  method PackMsg(table: CrcTable, buf: array<Byte>, cap: int, typ: Byte, seqNo: Word,
                 payload: seq<Byte>, payloadLen: int) returns (total: int)
    requires table.Valid() && cap <= buf.Length && payloadLen <= |payload|
    modifies buf, table, table.table
    ensures table.Valid()
    ensures total == -1 <==> payloadLen < 0 || HDR_SIZE + payloadLen > cap
    ensures total == -1 ==> buf[..] == old(buf[..])
    ensures total != -1 ==> total == HDR_SIZE + payloadLen
                            && buf[..total] == Packed(typ, seqNo, payload[..payloadLen])
                            && buf[total..] == old(buf[total..])
  {
    hide Le32, ToByte, Crc32;
    if payloadLen < 0 { return -1; }
    total := HDR_SIZE + payloadLen;
    if total > cap { return -1; }
    var h := Hdr(MAGIC_LOW, MAGIC_HIGH, VERSION, typ, payloadLen, seqNo, 0);
    var body := payload[..payloadLen];
    CopyInto(buf, 0, Encode(h));
    CopyInto(buf, HDR_SIZE, body);
    SplicedBody(old(buf[..]), Encode(h), body);
    var crc := table.Checksum(buf[..total]);
    CopyInto(buf, 10, Le32(crc));
    SplicedCrc(Prefix(h), Le32(0), Le32(crc), body, old(buf[total..]));
  }

  /** A buffer with some bytes written over it. */
  function Splice(s: seq<Byte>, at: nat, bytes: seq<Byte>): (r: seq<Byte>)
    requires at + |bytes| <= |s|
    ensures |r| == |s|
  {
    s[..at] + bytes + s[at + |bytes|..]
  }

  lemma SplicedBody(s: seq<Byte>, hdr: seq<Byte>, body: seq<Byte>)
    requires |hdr| + |body| <= |s|
    ensures Splice(Splice(s, 0, hdr), |hdr|, body) == hdr + body + s[|hdr| + |body|..]
  {
  }

  lemma SplicedCrc(prefix: seq<Byte>, was: seq<Byte>, crc: seq<Byte>, body: seq<Byte>, rest: seq<Byte>)
    requires |was| == |crc|
    ensures Splice(prefix + was + body + rest, |prefix|, crc) == prefix + crc + body + rest
  {
  }

  method CopyInto(buf: array<Byte>, at: nat, bytes: seq<Byte>)
    requires at + |bytes| <= buf.Length
    modifies buf
    ensures buf[..] == Splice(old(buf[..]), at, bytes)
  {
    for k := 0 to |bytes|
      invariant forall j | 0 <= j < buf.Length ::
                  buf[j] == if at <= j < at + k then bytes[j - at] else old(buf[j])
    {
      buf[at + k] := bytes[k];
    }
  }

  datatype Unpacked =
    | Error(code: int)
    | Message(hdr: Hdr, payload: seq<Byte>)

  /** The C++ `unpackMsg` on a received buffer: header checks, then two CRC passes. */
  function CppUnpack(buf: seq<Byte>): Unpacked {
    if |buf| < HDR_SIZE then Error(-1)
    else
      var hdr := Parse(buf);
      if hdr.magicLow != MAGIC_LOW || hdr.magicHigh != MAGIC_HIGH then Error(-1)
      else if hdr.ver != VERSION then Error(-2)
      else if HDR_SIZE + hdr.len > |buf| then Error(-3)
      else
        var body := buf[HDR_SIZE..HDR_SIZE + hdr.len];
        if Xor(Update(Update(INIT, ZeroCrc(buf)), body), 0xFFFFFFFF) != hdr.crc then Error(-4)
        else Message(hdr, body)
  }

  method UnpackMsg(table: CrcTable, buf: seq<Byte>) returns (r: Unpacked)
    requires table.Valid()
    modifies table, table.table
    ensures table.Valid() && r == CppUnpack(buf)
  {
    hide Parse, Crc.Update, Xor;
    if |buf| < HDR_SIZE { return Error(-1); }
    var hdr := Parse(buf);
    if hdr.magicLow != MAGIC_LOW || hdr.magicHigh != MAGIC_HIGH { return Error(-1); }
    if hdr.ver != VERSION { return Error(-2); }
    var total := HDR_SIZE + hdr.len;
    if total > |buf| { return Error(-3); }
    var c := table.Init();
    c := table.Accumulate(c, ZeroCrc(buf));
    c := table.Accumulate(c, buf[HDR_SIZE..total]);
    c := Xor(c, 0xFFFFFFFF);
    if c != hdr.crc { return Error(-4); }
    return Message(hdr, buf[HDR_SIZE..total]);
  }

  datatype PyError = ShortHeader | BadMagic | VersionMismatch | ShortBody | BadCrc

  datatype PyUnpacked =
    | Raised(error: PyError)
    | Returned(typ: Byte, seqNo: Word, body: seq<Byte>)

  /** The Python `unpack_msg`: the header is re-packed with a zero CRC and checked in one pass. */
  function PyUnpack(buf: seq<Byte>): PyUnpacked {
    if |buf| < HDR_SIZE then Raised(ShortHeader)
    else
      var h := Parse(buf[..HDR_SIZE]);
      if h.magicLow != MAGIC_LOW || h.magicHigh != MAGIC_HIGH then Raised(BadMagic)
      else if h.ver != VERSION then Raised(VersionMismatch)
      else
        var total := HDR_SIZE + h.len;
        if total > |buf| then Raised(ShortBody)
        else if Crc32(Encode(h.(crc := 0)) + buf[HDR_SIZE..total]) != h.crc then Raised(BadCrc)
        else Returned(h.typ, h.seqNo, buf[HDR_SIZE..total])
  }

  function CodeOf(e: PyError): int {
    match e
    case ShortHeader => -1
    case BadMagic => -1
    case VersionMismatch => -2
    case ShortBody => -3
    case BadCrc => -4
  }

  /** Both ends accept exactly the same buffers, read the same message out of them, and reject the
      others for the same reason. */
  lemma UnpackersAgree(buf: seq<Byte>)
    ensures match PyUnpack(buf)
            case Raised(e) => CppUnpack(buf) == Error(CodeOf(e))
            case Returned(typ, seqNo, body) =>
              CppUnpack(buf).Message? && CppUnpack(buf).hdr.typ == typ
              && CppUnpack(buf).hdr.seqNo == seqNo && CppUnpack(buf).payload == body
  {
    hide Encode, Crc.Update, Xor, Parse, ZeroCrc;
    if |buf| >= HDR_SIZE {
      ParsePrefix(buf);
      ZeroedHeader(buf);
      var total := HDR_SIZE + Parse(buf).len;
      if total <= |buf| {
        UpdateConcat(INIT, ZeroCrc(buf), buf[HDR_SIZE..total]);
      }
    }
  }

  lemma ParsePrefix(buf: seq<Byte>)
    requires |buf| >= HDR_SIZE
    ensures Parse(buf[..HDR_SIZE]) == Parse(buf)
  {
    hide FromLe32, ToInt;
  }

  /** Re-packing a parsed header with a zero CRC and clearing the CRC bytes in place agree. */
  lemma ZeroedHeader(buf: seq<Byte>)
    requires |buf| >= HDR_SIZE
    ensures Encode(Parse(buf).(crc := 0)) == ZeroCrc(buf)
  {
    hide Encode, Parse;
    EncodeParse(buf);
    ZeroCrcEncode(Parse(buf));
  }

  /** Unpacking what was packed returns the type, the sequence number and the payload, whatever
      follows it in the buffer, exactly when the length fits its 16-bit field. Nothing in packing
      checks that it does. */
  lemma RoundTripIff(typ: Byte, seqNo: Word, payload: seq<Byte>, rest: seq<Byte>)
    ensures var r := CppUnpack(Packed(typ, seqNo, payload) + rest);
            (r.Message? && r.hdr.typ == typ && r.hdr.seqNo == seqNo && r.payload == payload)
            <==> |payload| < 65536
  {
    hide Encode, Crc.Update, Xor, Parse;
    var h := Hdr(MAGIC_LOW, MAGIC_HIGH, VERSION, typ, |payload|, seqNo, 0);
    var crc := Crc32(Encode(h) + payload);
    var m := Packed(typ, seqNo, payload) + rest;
    assert m == Encode(h.(crc := crc)) + (payload + rest);
    ParseEncode(h.(crc := crc), payload + rest);
    if |payload| < 65536 {
      assert m[HDR_SIZE..HDR_SIZE + |payload|] == payload;
      ZeroCrcEncode(h.(crc := crc));
      assert ZeroCrc(m) == ZeroCrc(Encode(h.(crc := crc)));
      UpdateConcat(INIT, Encode(h), payload);
    }
  }

  /** The Python `pack_msg`, which packs the length into 16 bits or raises. */
  datatype PyPacked = StructError | Bytes(m: seq<Byte>)

  function PyPack(typ: Byte, seqNo: Word, payload: seq<Byte>): PyPacked {
    if |payload| >= 65536 then StructError
    else
      var h := Hdr(MAGIC_LOW, MAGIC_HIGH, VERSION, typ, |payload|, seqNo, 0);
      Bytes(Encode(h.(crc := Crc32(Encode(h) + payload))) + payload)
  }

  /** Messages cross the language border in both directions: whatever one end packs the other unpacks,
      and the Python end refuses to pack exactly what would not survive the trip. */
  lemma CrossRoundTrip(typ: Byte, seqNo: Word, payload: seq<Byte>)
    ensures PyUnpack(Packed(typ, seqNo, payload)) == Returned(typ, seqNo, payload) <==> |payload| < 65536
    ensures match PyPack(typ, seqNo, payload)
            case StructError => |payload| >= 65536
            case Bytes(m) => CppUnpack(m).Message? && CppUnpack(m).hdr.typ == typ
                             && CppUnpack(m).hdr.seqNo == seqNo && CppUnpack(m).payload == payload
  {
    hide PyUnpack, CppUnpack, Encode, Crc32;
    var m := Packed(typ, seqNo, payload);
    RoundTripIff(typ, seqNo, payload, []);
    assert m + [] == m;
    UnpackersAgree(m);
  }

  lemma WordValueRaw(a: Byte, b: Byte, c: Byte, d: Byte)
    ensures ((a as Word) ^ (((b as Word) ^ (((c as Word) ^ ((d as Word) << 8)) << 8)) << 8)) as int
         == a as int + 256 * (b as int) + 65536 * (c as int) + 16777216 * (d as int)
  {
  }

  /** A word in four bytes, the lowest first. */
  lemma WordValue(a: Byte, b: Byte, c: Byte, d: Byte)
    ensures FromLe32(a, b, c, d) as int == ToInt(a) + 256 * ToInt(b) + 65536 * ToInt(c) + 16777216 * ToInt(d)
  {
    hide FromLe32;
    FourBytes(a, b, c, d);
    WordValueRaw(a, b, c, d);
  }

  /** The layout on the wire, byte by byte: magic, version, type, length, sequence number and checksum, all
      least significant byte first, and the payload behind them. */
  lemma PackedLayout(typ: Byte, seqNo: Word, payload: seq<Byte>)
    ensures var m := Packed(typ, seqNo, payload);
            && m[..4] == [0x4D, 0x53, 1, typ] && m[14..] == payload
            && ToInt(m[4]) + 256 * ToInt(m[5]) == |payload| % 65536
            && ToInt(m[6]) + 256 * ToInt(m[7]) + 65536 * ToInt(m[8]) + 16777216 * ToInt(m[9]) == seqNo as int
            && ToInt(m[10]) + 256 * ToInt(m[11]) + 65536 * ToInt(m[12]) + 16777216 * ToInt(m[13])
               == Crc32(m[..10] + [0, 0, 0, 0] + payload) as int
  {
    hide Le32, FromLe32, ToByte, ToInt, Crc32;
    var h := Hdr(MAGIC_LOW, MAGIC_HIGH, VERSION, typ, |payload|, seqNo, 0);
    var crc := Crc32(Encode(h) + payload);
    var m := Packed(typ, seqNo, payload);
    ZeroBytes();
    assert m[..10] == Prefix(h) && Encode(h) == m[..10] + [0, 0, 0, 0];
    var (s, t) := (Le32(seqNo), Le32(crc));
    assert m[6] == s[0] && m[7] == s[1] && m[8] == s[2] && m[9] == s[3];
    assert m[10] == t[0] && m[11] == t[1] && m[12] == t[2] && m[13] == t[3];
    Le32RoundTrip(seqNo);
    Le32RoundTrip(crc);
    WordValue(m[6], m[7], m[8], m[9]);
    WordValue(m[10], m[11], m[12], m[13]);
    ByteOfInt(|payload| % 256);
    ByteOfInt(|payload| / 256 % 256);
    SplitLength(|payload|);
  }

  // ---------------------------------------------------------------------------------------------
  // Corruption
  // ---------------------------------------------------------------------------------------------

  /** A buffer that is exactly one acceptable message. */
  ghost predicate WellFormed(buf: seq<Byte>) {
    CppUnpack(buf).Message? && |buf| == HDR_SIZE + CppUnpack(buf).hdr.len
  }

  /** Two buffers of one length that differ only inside bytes i .. i+w. */
  ghost predicate DifferWithin(a: seq<Byte>, b: seq<Byte>, i: nat, w: nat) {
    |a| == |b| && i + w <= |a| && a != b && a[..i] == b[..i] && a[i + w..] == b[i + w..]
  }

  lemma MessageCrc(buf: seq<Byte>)
    requires |buf| >= HDR_SIZE && |buf| == HDR_SIZE + Parse(buf).len
    ensures CppUnpack(buf).Message? <==>
            && buf[0] == MAGIC_LOW && buf[1] == MAGIC_HIGH && buf[2] == VERSION
            && Crc32(Checked(buf)) == Parse(buf).crc
    ensures buf[0] == MAGIC_LOW && buf[1] == MAGIC_HIGH && buf[2] == VERSION && !CppUnpack(buf).Message?
            ==> CppUnpack(buf) == Error(-4)
  {
    hide Crc.Update, Xor, FromLe32, ToInt;
    UpdateConcat(INIT, ZeroCrc(buf), buf[HDR_SIZE..]);
    assert buf[HDR_SIZE..|buf|] == buf[HDR_SIZE..];
  }

  /** The bytes the CRC of a message is taken over. */
  function Checked(buf: seq<Byte>): (z: seq<Byte>)
    requires |buf| >= HDR_SIZE
    ensures |z| == |buf| && forall k | 0 <= k < |buf| :: z[k] == if 10 <= k < 14 then 0 else buf[k]
  {
    ZeroCrc(buf) + buf[HDR_SIZE..]
  }

  /** Clearing an untouched CRC field neither hides nor moves a difference. */
  lemma DifferenceSurvives(buf: seq<Byte>, bad: seq<Byte>, i: nat, w: nat)
    requires |buf| >= HDR_SIZE && DifferWithin(buf, bad, i, w) && bad[10..14] == buf[10..14]
    ensures DifferWithin(Checked(buf), Checked(bad), i, w)
  {
    var (x, y) := (Checked(buf), Checked(bad));
    forall k | 0 <= k < |buf| && (k < i || i + w <= k)
      ensures x[k] == y[k]
    {
      if k < i {
        assert buf[k] == buf[..i][k] && bad[k] == bad[..i][k];
      } else {
        assert buf[k] == buf[i + w..][k - i - w] && bad[k] == bad[i + w..][k - i - w];
      }
    }
    SameField(buf, bad, 10, 14);
    var k :| 0 <= k < |buf| && buf[k] != bad[k];
    assert x[k] != y[k];
  }

  lemma WindowDetected(x: seq<Byte>, y: seq<Byte>, i: nat, w: nat)
    requires DifferWithin(x, y, i, w) && w <= 4
    ensures Crc32(x) != Crc32(y)
  {
    hide Crc32;
    assert x == x[..i] + x[i..i + w] + x[i + w..];
    assert y == x[..i] + y[i..i + w] + x[i + w..];
    BurstDetected(x[..i], x[i..i + w], y[i..i + w], x[i + w..]);
  }

  /** A message corrupted inside at most four consecutive bytes, with the length and CRC fields
      spared, is never accepted; with the magic and the version spared too, the CRC is what
      rejects it. Windows inside the type, the sequence number or the payload are instances. */
  lemma BurstRejected(buf: seq<Byte>, bad: seq<Byte>, i: nat, w: nat)
    requires WellFormed(buf) && DifferWithin(buf, bad, i, w) && w <= 4
    requires bad[4..6] == buf[4..6] && bad[10..14] == buf[10..14]
    ensures CppUnpack(bad).Error?
    ensures bad[..3] == buf[..3] ==> CppUnpack(bad) == Error(-4)
  {
    hide Crc32, FromLe32, ToInt, Checked;
    SameField(buf, bad, 4, 6);
    SameField(buf, bad, 10, 14);
    MessageCrc(buf);
    MessageCrc(bad);
    DifferenceSurvives(buf, bad, i, w);
    WindowDetected(Checked(buf), Checked(bad), i, w);
    if bad[..3] == buf[..3] {
      SameField(buf, bad, 0, 3);
    }
  }

  lemma SameField(a: seq<Byte>, b: seq<Byte>, from: nat, to: nat)
    requires from <= to <= |a| && to <= |b| && a[from..to] == b[from..to]
    ensures forall k | from <= k < to :: a[k] == b[k]
  {
    assert forall k | from <= k < to :: a[k] == a[from..to][k - from] && b[k] == b[from..to][k - from];
  }

  /** Any change confined to the CRC field is rejected by the CRC. */
  lemma CrcFieldRejected(buf: seq<Byte>, bad: seq<Byte>)
    requires WellFormed(buf) && DifferWithin(buf, bad, 10, 4)
    ensures CppUnpack(bad) == Error(-4)
  {
    hide Crc.Update, Xor, FromLe32, ToInt;
    assert forall k | 0 <= k < 10 :: buf[k] == buf[..10][k] && bad[k] == bad[..10][k];
    assert forall k | 14 <= k < |buf| :: buf[k] == buf[14..][k - 14] && bad[k] == bad[14..][k - 14];
    MessageCrc(buf);
    MessageCrc(bad);
    assert Checked(buf) == Checked(bad);
    var k :| 0 <= k < |buf| && buf[k] != bad[k];
    assert k == 10 || k == 11 || k == 12 || k == 13;
    FromLe32Injective(buf[10], buf[11], buf[12], buf[13], bad[10], bad[11], bad[12], bad[13]);
  }

  // ---------------------------------------------------------------------------------------------
  // HELLO
  // ---------------------------------------------------------------------------------------------

  datatype Hello = Hello(dtUs: nat, sizes: seq<nat>)

  /** Sizes of imu, rc, pwm, state, out, telem and header, in that order. */
  const HELLO: Hello := Hello(1000, [49, 26, 16, 87, 40, 88, 14])

  method HelloMatches(local: Hello, peer: Hello) returns (ok: bool)
    requires |local.sizes| == |peer.sizes| == 7
    ensures ok <==> local == peer
  {
    if local.dtUs != peer.dtUs { return false; }
    for i := 0 to 7
      invariant local.sizes[..i] == peer.sizes[..i]
    {
      if local.sizes[i] != peer.sizes[i] { return false; }
      assert local.sizes[..i + 1] == local.sizes[..i] + [local.sizes[i]];
      assert peer.sizes[..i + 1] == peer.sizes[..i] + [peer.sizes[i]];
    }
    assert local.sizes == local.sizes[..7] && peer.sizes == peer.sizes[..7];
    return true;
  }
}
