/** SBUS frames: header, sixteen 11-bit channels packed low bit first, a flags byte and a footer.
    The Python side packs and unpacks through one big integer, the C++ side picks each channel out
    of two or three bytes. */
module Sbus {
  import opened Bytes
  import opened Digits

  const HEADER: Byte := 0x0F
  const FRAME_LEN: nat := 25
  const SBUS_MIN: nat := 172
  const SBUS_MID: nat := 992
  const SBUS_MAX: nat := 1811

  lemma Widths()
    ensures Pow2(8) == 256 && Pow2(11) == 2048 && Pow2(13) == 8192
  {
    assert Pow2(4) == 16;
  }

  // ---------------------------------------------------------------------------------------------
  // Encoding
  // ---------------------------------------------------------------------------------------------

  /** What a frame keeps of channel i: `& 0x7FF`, missing channels being padded with zero. */
  function Field(channels: seq<int>, i: nat): (c: nat)
    ensures c < 2048
  {
    (if i < |channels| then channels[i] else 0) % 2048
  }

  function Fields(channels: seq<int>, n: nat): (fs: seq<nat>)
    ensures |fs| == n && forall i | 0 <= i < n :: fs[i] == Field(channels, i)
  {
    seq(n, i requires 0 <= i < n => Field(channels, i))
  }

  function PackedBits(channels: seq<int>): nat {
    Value(Fields(channels, 16), 11)
  }

  function ByteOf(v: nat, k: nat): Byte {
    Widths();
    ToByte(Digit(v, 8, k))
  }

  function EncodeFrame(channels: seq<int>, flags: int): (f: seq<Byte>)
    ensures |f| == FRAME_LEN && f[0] == HEADER && f[23] == ToByte(flags % 16) && f[24] == 0
    ensures forall k | 0 <= k < 22 :: f[1 + k] == ByteOf(PackedBits(channels), k)
  {
    [HEADER] + seq(22, k requires 0 <= k < 22 => ByteOf(PackedBits(channels), k)) + [ToByte(flags % 16), 0]
  }

  /** The two loops of the Python encoder. The fields being merged never overlap the bits already
      there, so `|=` of a shifted field is addition of its weighted value. */
  method SbusEncode(channels: seq<int>, flags: int) returns (frame: seq<Byte>)
    ensures frame == EncodeFrame(channels, flags)
  {
    hide Weight, Digit, Value, ByteOf;
    var bits: nat := 0;
    assert Value(Fields(channels, 0), 11) == 0 by { EmptyValue(); }
    for i := 0 to 16
      invariant bits == Value(Fields(channels, i), 11)
    {
      ValueSnoc(Fields(channels, i), Field(channels, i), 11);
      assert Fields(channels, i + 1) == Fields(channels, i) + [Field(channels, i)];
      bits := bits + Weight(11, i) * Field(channels, i);
    }
    var data := new Byte[25];
    data[0] := HEADER;
    for b := 0 to 22
      invariant data[0] == HEADER
      invariant forall k | 0 <= k < b :: data[1 + k] == ByteOf(bits, k)
    {
      data[1 + b] := ByteOf(bits, b);
    }
    data[23] := ToByte(flags % 16);
    data[24] := 0;
    frame := data[..];
  }

  lemma EmptyValue()
    ensures Value([], 11) == 0
  {
  }

  // ---------------------------------------------------------------------------------------------
  // Decoding
  // ---------------------------------------------------------------------------------------------

  function Ints(bs: seq<Byte>): (ds: seq<nat>)
    ensures |ds| == |bs| && forall k | 0 <= k < |bs| :: ds[k] == ToInt(bs[k])
  {
    seq(|bs|, k requires 0 <= k < |bs| => ToInt(bs[k]))
  }

  datatype PyDecoded =
    | ValueError
    | Channels(ch: seq<nat>, flags: Byte)

  /** The Python decoder: `int.from_bytes`, then shift and mask. */
  function PyDecode(data: seq<Byte>): PyDecoded {
    if |data| != FRAME_LEN || data[0] != HEADER then ValueError
    else
      var bits := Value(Ints(data[1..23]), 8);
      Channels(seq(16, i requires 0 <= i < 16 => Digit(bits, 11, i)), data[23])
  }

  function Or2(a: Byte, b: Byte): bv32 {
    (a as bv32) | ((b as bv32) << 8)
  }

  function Or3(a: Byte, b: Byte, c: Byte): bv32 {
    (a as bv32) | ((b as bv32) << 8) | ((c as bv32) << 16)
  }

  /** The C++ extraction: two bytes, and a third when the field is not byte aligned. */
  function Raw(f: seq<Byte>, i: nat): bv32
    requires |f| == FRAME_LEN && i < 16
  {
    var byte := 1 + At(i).0;
    if At(i).1 != 0 then Or3(f[byte], f[byte + 1], f[byte + 2]) else Or2(f[byte], f[byte + 1])
  }

  function RawInt(f: seq<Byte>, i: nat): nat
    requires |f| == FRAME_LEN && i < 16
  {
    Raw(f, i) as int
  }

  /** `(raw >> shift) & 0x7FF`. */
  function Channel(f: seq<Byte>, i: nat): (c: nat)
    requires |f| == FRAME_LEN && i < 16
    ensures c < 2048
  {
    QuotientNonneg(RawInt(f, i), Pow2(At(i).1));
    RawInt(f, i) / Pow2(At(i).1) % 2048
  }

  lemma TwoBytesRaw(a: Byte, b: Byte)
    ensures ((a as bv32) | ((b as bv32) << 8)) as int == a as int + 256 * (b as int)
  {
  }

  lemma ThreeBytesRaw(a: Byte, b: Byte, c: Byte)
    ensures ((a as bv32) | ((b as bv32) << 8) | ((c as bv32) << 16)) as int
            == a as int + 256 * (b as int) + 65536 * (c as int)
  {
  }

  lemma TwoBytes(a: Byte, b: Byte)
    ensures Or2(a, b) as int == ToInt(a) + 256 * ToInt(b)
  {
    TwoBytesRaw(a, b);
  }

  lemma ThreeBytes(a: Byte, b: Byte, c: Byte)
    ensures Or3(a, b, c) as int == ToInt(a) + 256 * ToInt(b) + 65536 * ToInt(c)
  {
    ThreeBytesRaw(a, b, c);
  }

  /** Byte and bit offset of channel i in the packed bits. */
  function At(i: nat): (p: (nat, nat))
    ensures 11 * i == 8 * p.0 + p.1 && p.1 < 8
  {
    (11 * i / 8, 11 * i % 8)
  }

  /** Adding anything above an eleven-bit field at bit s of a 24-bit window leaves the field alone. */
  lemma AboveField(x: nat, t: nat, s: nat)
    requires s <= 7
    ensures (x + 0x100_0000 * t) / Pow2(s) % 2048 == x / Pow2(s) % 2048
    ensures s <= 5 ==> (x + 0x1_0000 * t) / Pow2(s) % 2048 == x / Pow2(s) % 2048
  {
    hide Pow2;
    Widths();
    Pow2Add(s, 13 - s);
    FieldLocal(x, t, Pow2(s), Pow2(13 - s));
    assert Pow2(s) * (2048 * Pow2(13 - s) * t) == 0x100_0000 * t by {
      Reassociate(Pow2(s), Pow2(13 - s), t);
    }
    if s <= 5 {
      Pow5();
      Pow2Add(s, 5 - s);
      FieldLocal(x, t, Pow2(s), Pow2(5 - s));
      Reassociate(Pow2(s), Pow2(5 - s), t);
    }
  }

  lemma Pow5()
    ensures Pow2(5) == 32
  {
    assert Pow2(2) == 4;
  }

  lemma Reassociate(p: nat, c: nat, t: nat)
    ensures p * (2048 * c * t) == 2048 * (p * c) * t
  {
    assert p * (2048 * c * t) == p * (2048 * c) * t;
    assert p * (2048 * c) == 2048 * (p * c);
  }

  /** The field at bit 8k + s of the big integer is the field at bit s of what byte k starts. */
  lemma FieldFromByte(ds: seq<nat>, i: nat)
    requires AreDigits(ds, 8) && At(i).0 <= |ds|
    ensures Value(ds[At(i).0..], 8) / Pow2(At(i).1) >= 0
    ensures Digit(Value(ds, 8), 11, i) == Value(ds[At(i).0..], 8) / Pow2(At(i).1) % 2048
  {
    hide Pow2, Value, At;
    Widths();
    var (k, s) := At(i);
    Pow2Add(8 * k, s);
    DropDigits(ds, 8, k);
    DivDiv(Value(ds, 8), Pow2(8 * k), Pow2(s));
    QuotientNonneg(Value(ds[k..], 8), Pow2(s));
  }

  lemma TwoDigits(ds: seq<nat>)
    requires |ds| >= 2
    ensures Value(ds, 8) == ds[0] + 256 * ds[1] + 65536 * Value(ds[2..], 8)
  {
    Widths();
    assert ds[1..][1..] == ds[2..];
    assert Value(ds[1..], 8) == ds[1] + 256 * Value(ds[2..], 8);
  }

  /** Two or three bytes are enough to read a field that starts in the first of them. */
  lemma FieldFromThree(ds: seq<nat>, third: nat, s: nat)
    requires |ds| >= 2 && s <= 7
    requires if |ds| == 2 then s == 5 else third == ds[2]
    ensures var raw := ds[0] + 256 * ds[1] + (if s != 0 then 65536 * third else 0);
            raw / Pow2(s) % 2048 == Value(ds, 8) / Pow2(s) % 2048
  {
    hide Pow2, Value;
    TwoDigits(ds);
    var low := ds[0] + 256 * ds[1];
    if |ds| == 2 {
      NoDigits(ds[2..]);
      AboveField(low, third, s);
    } else if s == 0 {
      AboveField(low, Value(ds[2..], 8), s);
    } else {
      FirstDigit(ds[2..]);
      AboveField(low + 65536 * third, Value(ds[2..][1..], 8), s);
    }
  }

  /** On every 25-byte frame the C++ extraction and the big-integer decode read the same channels;
      the flags byte that leaks into channel 15's third byte is always masked away. */
  lemma ChannelIsField(f: seq<Byte>, i: nat)
    requires |f| == FRAME_LEN && i < 16
    ensures Channel(f, i) == Digit(Value(Ints(f[1..23]), 8), 11, i)
  {
    hide Pow2, Value, Digit, ToInt, RawInt, At;
    Widths();
    var ds := Ints(f[1..23]);
    var (k, s) := At(i);
    RawValue(f, i, k, s);
    FieldFromByte(ds, i);
    FieldFromThree(ds[k..], ToInt(f[3 + k]), s);
  }

  lemma RawValue(f: seq<Byte>, i: nat, k: nat, s: nat)
    requires |f| == FRAME_LEN && i < 16 && (k, s) == At(i)
    ensures RawInt(f, i) == ToInt(f[1 + k]) + 256 * ToInt(f[2 + k]) + (if s != 0 then 65536 * ToInt(f[3 + k]) else 0)
  {
    hide ToInt, Or2, Or3, At;
    TwoBytes(f[1 + k], f[2 + k]);
    ThreeBytes(f[1 + k], f[2 + k], f[3 + k]);
  }

  lemma NoDigits(ds: seq<nat>)
    requires ds == []
    ensures Value(ds, 8) == 0
  {
  }

  lemma FirstDigit(ds: seq<nat>)
    requires ds != []
    ensures Value(ds, 8) == ds[0] + 256 * Value(ds[1..], 8)
  {
    Widths();
  }

  /** The encoder's bytes spell the packed integer. */
  lemma EncodedValue(channels: seq<int>, flags: int)
    ensures Value(Ints(EncodeFrame(channels, flags)[1..23]), 8) == PackedBits(channels)
  {
    hide Pow2, Weight, Digit, Value;
    Widths();
    var v := PackedBits(channels);
    var ds := Ints(EncodeFrame(channels, flags)[1..23]);
    ValueBound(Fields(channels, 16), 11);
    assert Weight(11, 16) == Weight(8, 22) by { SameWidth(); }
    forall k | 0 <= k < 22
      ensures ds[k] == Digit(v, 8, k)
    {
      DigitBelow(v, k);
      ByteOfInt(Digit(v, 8, k));
    }
    DigitsSpell(v, ds, 8);
  }

  lemma SameWidth()
    ensures Weight(11, 16) == Weight(8, 22)
  {
  }

  lemma DigitBelow(v: nat, k: nat)
    ensures 0 <= Digit(v, 8, k) < 256
  {
    Widths();
  }

  /** SBUS round trip: the C++ parser reads back every channel modulo 2048, and so does the Python
      decoder, along with the low four flag bits. */
  lemma RoundTrip(channels: seq<int>, flags: int)
    ensures forall i | 0 <= i < 16 :: Channel(EncodeFrame(channels, flags), i) == Field(channels, i)
    ensures PyDecode(EncodeFrame(channels, flags)) == Channels(Fields(channels, 16), ToByte(flags % 16))
  {
    hide Pow2, Value, Digit, Channel;
    var f := EncodeFrame(channels, flags);
    EncodedValue(channels, flags);
    Widths();
    forall i | 0 <= i < 16
      ensures Digit(PackedBits(channels), 11, i) == Field(channels, i) && Channel(f, i) == Field(channels, i)
    {
      DigitAt(Fields(channels, 16), 11, i);
      ChannelIsField(f, i);
    }
  }
}
