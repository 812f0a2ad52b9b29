/** CRC-32 (RFC 1952, section 8): the bit-at-a-time definition, the table-driven refinement of it,
    and what it detects. */
module Crc {
  import opened Bytes

  type Word = bv32

  const POLY: Word := 0xEDB88320
  const INIT: Word := 0xFFFFFFFF

  function Xor(x: Word, y: Word): Word { x ^ y }

  function ShiftUp(x: Word): Word { x << 8 }

  function ShiftDown(x: Word): Word { x >> 8 }

  function Low(x: Word): Word { x & 0xFF }

  function Widen(p: Byte): Word { p as Word }

  /** One step of the reflected shift register. */
  function Bit(c: Word): Word {
    if c & 1 == 1 then POLY ^ (c >> 1) else c >> 1
  }

  function Bits(c: Word, n: nat): Word {
    if n == 0 then c else Bit(Bits(c, n - 1))
  }

  /** Reference definition of the register after one more byte. */
  function ByteStep(c: Word, p: Byte): Word {
    Bits(Xor(c, Widen(p)), 8)
  }

  /** Reference definition of the register after a byte string. */
  function Update(c: Word, data: seq<Byte>): Word {
    if data == [] then c
    else ByteStep(Update(c, data[..|data| - 1]), data[|data| - 1])
  }

  function Crc32(data: seq<Byte>): Word {
    Xor(Update(INIT, data), 0xFFFFFFFF)
  }

  /** Feeding a concatenation is feeding the parts one after the other. */
  lemma {:induction false} UpdateConcat(c: Word, a: seq<Byte>, b: seq<Byte>)
    ensures Update(c, a + b) == Update(Update(c, a), b)
  {
    hide ByteStep;
    if b == [] {
      assert a + b == a;
    } else {
      var ab := a + b;
      UpdateConcat(c, a, b[..|b| - 1]);
      assert ab[..|ab| - 1] == a + b[..|b| - 1];
    }
  }

  // ---------------------------------------------------------------------------------------------
  // Linearity
  // ---------------------------------------------------------------------------------------------

  lemma LowBit(x: Word)
    ensures x & 1 == 0 || x & 1 == 1
  {
  }

  lemma BothOdd(x: Word, y: Word)
    requires x & 1 == 1 && y & 1 == 1
    ensures (x ^ y) & 1 == 0 && (x ^ y) >> 1 == (POLY ^ (x >> 1)) ^ (POLY ^ (y >> 1))
  {
  }

  lemma FirstOdd(x: Word, y: Word)
    requires x & 1 == 1 && y & 1 == 0
    ensures (x ^ y) & 1 == 1 && POLY ^ ((x ^ y) >> 1) == (POLY ^ (x >> 1)) ^ (y >> 1)
  {
  }

  lemma SecondOdd(x: Word, y: Word)
    requires x & 1 == 0 && y & 1 == 1
    ensures (x ^ y) & 1 == 1 && POLY ^ ((x ^ y) >> 1) == (x >> 1) ^ (POLY ^ (y >> 1))
  {
  }

  lemma BothEven(x: Word, y: Word)
    requires x & 1 == 0 && y & 1 == 0
    ensures (x ^ y) & 1 == 0 && (x ^ y) >> 1 == (x >> 1) ^ (y >> 1)
  {
  }

  lemma BitLinearRaw(x: Word, y: Word)
    ensures Bit(x ^ y) == Bit(x) ^ Bit(y)
  {
    LowBit(x);
    LowBit(y);
    if x & 1 == 1 && y & 1 == 1 {
      BothOdd(x, y);
    } else if x & 1 == 1 {
      FirstOdd(x, y);
    } else if y & 1 == 1 {
      SecondOdd(x, y);
    } else {
      BothEven(x, y);
    }
  }

  lemma BitLinear(x: Word, y: Word)
    ensures Bit(Xor(x, y)) == Xor(Bit(x), Bit(y))
  {
    hide Bit;
    BitLinearRaw(x, y);
  }

  lemma {:induction false} BitsLinear(x: Word, y: Word, n: nat)
    ensures Bits(Xor(x, y), n) == Xor(Bits(x, n), Bits(y, n))
  {
    hide Bit, Xor;
    if n > 0 {
      BitsLinear(x, y, n - 1);
      BitLinear(Bits(x, n - 1), Bits(y, n - 1));
    }
  }

  lemma {:induction false} BitsCompose(c: Word, m: nat, n: nat)
    ensures Bits(c, m + n) == Bits(Bits(c, m), n)
  {
    hide Bit;
    if n > 0 {
      BitsCompose(c, m, n - 1);
    }
  }

  function Twice(y: Word): Word { y << 1 }

  lemma EvenStep(y: Word)
    requires y < 0x8000_0000
    ensures Bit(Twice(y)) == y
  {
  }

  lemma EightDoublings(x: Word) returns (a: Word, b: Word, c: Word, d: Word, e: Word, f: Word, g: Word)
    requires x < 0x100_0000
    ensures a == Twice(x) && b == Twice(a) && c == Twice(b) && d == Twice(c) && e == Twice(d)
    ensures f == Twice(e) && g == Twice(f) && ShiftUp(x) == Twice(g)
    ensures a < 0x8000_0000 && b < 0x8000_0000 && c < 0x8000_0000 && d < 0x8000_0000
    ensures e < 0x8000_0000 && f < 0x8000_0000 && g < 0x8000_0000
  {
    a, b, c, d := x << 1, x << 2, x << 3, x << 4;
    e, f, g := x << 5, x << 6, x << 7;
  }

  /** Eight zero bits leave the register by plain shifting. */
  lemma BitsOfShifted(x: Word)
    requires x < 0x100_0000
    ensures Bits(ShiftUp(x), 8) == x
  {
    hide Bit, Twice, ShiftUp, Bits;
    var a, b, c, d, e, f, g := EightDoublings(x);
    EvenStep(x); EvenStep(a); EvenStep(b); EvenStep(c);
    EvenStep(d); EvenStep(e); EvenStep(f); EvenStep(g);
    Unroll8(ShiftUp(x));
  }

  lemma Unroll8(c: Word)
    ensures Bits(c, 8) == Bit(Bit(Bit(Bit(Bit(Bit(Bit(Bit(c))))))))
  {
    hide Bit;
    assert Bits(c, 1) == Bit(c);
    assert Bits(c, 3) == Bit(Bit(Bits(c, 1)));
    assert Bits(c, 5) == Bit(Bit(Bits(c, 3)));
    assert Bits(c, 7) == Bit(Bit(Bits(c, 5)));
  }

  // ---------------------------------------------------------------------------------------------
  // The table refines the definition
  // ---------------------------------------------------------------------------------------------

  ghost predicate IsTable(t: seq<Word>) {
    |t| == 256 && forall i | 0 <= i < 256 :: t[i] == Bits(i as Word, 8)
  }

  lemma SplitByte(x: Word)
    ensures x == Xor(Low(x), ShiftUp(ShiftDown(x))) && ShiftDown(x) < 0x100_0000 && Low(x) < 0x100
  {
  }

  lemma IndexRoundTrip(x: Word)
    requires x < 0x100
    ensures 0 <= x as int < 256 && (x as int) as Word == x
  {
  }

  lemma ByteLeavesTop(c: Word, p: Byte)
    ensures ShiftDown(Xor(c, Widen(p))) == ShiftDown(c)
  {
  }

  function TableStep(t: seq<Word>, c: Word, p: Byte): Word
    requires |t| == 256
  {
    var x := Xor(c, Widen(p));
    SplitByte(x);
    IndexRoundTrip(Low(x));
    Xor(t[Low(x) as int], ShiftDown(c))
  }

  lemma TableStepRefines(t: seq<Word>, c: Word, p: Byte)
    requires IsTable(t)
    ensures TableStep(t, c, p) == ByteStep(c, p)
  {
    hide Bits, Xor, ShiftUp, ShiftDown, Low, Widen;
    var x := Xor(c, Widen(p));
    SplitByte(x);
    IndexRoundTrip(Low(x));
    BitsLinear(Low(x), ShiftUp(ShiftDown(x)), 8);
    BitsOfShifted(ShiftDown(x));
    ByteLeavesTop(c, p);
    assert t[Low(x) as int] == Bits((Low(x) as int) as Word, 8);
  }

  /** The lazily built table and the loops over it. */
  class CrcTable {
    const table: array<Word>
    var ready: bool

    ghost predicate Valid()
      reads this, table
    {
      table.Length == 256 && (ready ==> IsTable(table[..]))
    }

    constructor ()
      ensures Valid() && !ready && fresh(table)
    {
      table := new Word[256];
      ready := false;
    }

    method Build()
      requires Valid()
      modifies this, table
      ensures Valid() && ready
    {
      for i := 0 to 256
        invariant forall j | 0 <= j < i :: table[j] == Bits(j as Word, 8)
      {
        var c := i as Word;
        for k := 0 to 8
          invariant c == Bits(i as Word, k)
        {
          c := if c & 1 == 1 then POLY ^ (c >> 1) else c >> 1;
        }
        table[i] := c;
      }
      ready := true;
    }

    method Init() returns (c: Word)
      requires Valid()
      modifies this, table
      ensures Valid() && ready && c == INIT
    {
      if !ready {
        Build();
      }
      c := INIT;
    }

    /** The caller has called Init at least once, as every user of the table does. */
    method Accumulate(crc: Word, data: seq<Byte>) returns (c: Word)
      requires Valid() && ready
      ensures c == Update(crc, data)
    {
      hide TableStep, ByteStep;
      c := crc;
      for i := 0 to |data|
        invariant c == Update(crc, data[..i])
      {
        assert data[..i + 1][..i] == data[..i];
        TableStepRefines(table[..], c, data[i]);
        c := TableStep(table[..], c, data[i]);
      }
      assert data[..|data|] == data;
    }

    method Checksum(data: seq<Byte>) returns (c: Word)
      requires Valid()
      modifies this, table
      ensures Valid() && ready && c == Crc32(data)
    {
      c := Init();
      c := Accumulate(c, data);
      c := Xor(c, 0xFFFFFFFF);
    }
  }

  // ---------------------------------------------------------------------------------------------
  // The standard's check value
  // ---------------------------------------------------------------------------------------------

  lemma CheckStep1()
    ensures ByteStep(0xFFFFFFFF, 0x31) == 0x7C231048
  {
    Unroll8(Xor(0xFFFFFFFF, Widen(0x31)));
  }

  lemma CheckStep2()
    ensures ByteStep(0x7C231048, 0x32) == 0xB0ACBB32
  {
    Unroll8(Xor(0x7C231048, Widen(0x32)));
  }

  lemma CheckStep3()
    ensures ByteStep(0xB0ACBB32, 0x33) == 0x77B79C2D
  {
    Unroll8(Xor(0xB0ACBB32, Widen(0x33)));
  }

  lemma CheckStep4()
    ensures ByteStep(0x77B79C2D, 0x34) == 0x641C1F5C
  {
    Unroll8(Xor(0x77B79C2D, Widen(0x34)));
  }

  lemma CheckStep5()
    ensures ByteStep(0x641C1F5C, 0x35) == 0x340AC5E3
  {
    Unroll8(Xor(0x641C1F5C, Widen(0x35)));
  }

  lemma CheckStep6()
    ensures ByteStep(0x340AC5E3, 0x36) == 0xF68D2C9E
  {
    Unroll8(Xor(0x340AC5E3, Widen(0x36)));
  }

  lemma CheckStep7()
    ensures ByteStep(0xF68D2C9E, 0x37) == 0xAFFC9660
  {
    Unroll8(Xor(0xF68D2C9E, Widen(0x37)));
  }

  lemma CheckStep8()
    ensures ByteStep(0xAFFC9660, 0x38) == 0x651F2550
  {
    Unroll8(Xor(0xAFFC9660, Widen(0x38)));
  }

  lemma CheckStep9()
    ensures ByteStep(0x651F2550, 0x39) == 0x340BC6D9
  {
    Unroll8(Xor(0x651F2550, Widen(0x39)));
  }

  /** The checksum of the digits 1 to 9 is the one that identifies this CRC. */
  lemma CheckValue()
    ensures Crc32([0x31, 0x32, 0x33, 0x34, 0x35, 0x36, 0x37, 0x38, 0x39]) == 0xCBF43926
  {
    hide ByteStep;
    var s: seq<Byte> := [0x31, 0x32, 0x33, 0x34, 0x35, 0x36, 0x37, 0x38, 0x39];
    CheckStep1();
    assert s[..1][..0] == s[..0] && Update(INIT, s[..1]) == 0x7C231048;
    CheckStep2();
    assert s[..2][..1] == s[..1] && Update(INIT, s[..2]) == 0xB0ACBB32;
    CheckStep3();
    assert s[..3][..2] == s[..2] && Update(INIT, s[..3]) == 0x77B79C2D;
    CheckStep4();
    assert s[..4][..3] == s[..3] && Update(INIT, s[..4]) == 0x641C1F5C;
    CheckStep5();
    assert s[..5][..4] == s[..4] && Update(INIT, s[..5]) == 0x340AC5E3;
    CheckStep6();
    assert s[..6][..5] == s[..5] && Update(INIT, s[..6]) == 0xF68D2C9E;
    CheckStep7();
    assert s[..7][..6] == s[..6] && Update(INIT, s[..7]) == 0xAFFC9660;
    CheckStep8();
    assert s[..8][..7] == s[..7] && Update(INIT, s[..8]) == 0x651F2550;
    CheckStep9();
    assert s[..9][..8] == s[..8] && Update(INIT, s[..9]) == 0x340BC6D9;
    assert s[..9] == s;
  }

  // ---------------------------------------------------------------------------------------------
  // Detection
  // ---------------------------------------------------------------------------------------------

  /** The inverse of `Bit`: the polynomial's top bit tells which branch was taken. */
  function Unbit(c: Word): Word {
    if c & 0x8000_0000 != 0 then ((c ^ POLY) << 1) | 1 else c << 1
  }

  lemma UnbitInverts(c: Word)
    ensures Unbit(Bit(c)) == c
  {
  }

  lemma {:induction false} BitsInjective(x: Word, y: Word, n: nat)
    requires Bits(x, n) == Bits(y, n)
    ensures x == y
  {
    hide Bit, Unbit;
    if n > 0 {
      UnbitInverts(Bits(x, n - 1));
      UnbitInverts(Bits(y, n - 1));
      BitsInjective(x, y, n - 1);
    }
  }

  lemma XorCancels(x: Word, y: Word, p: Word)
    ensures Xor(x, p) == Xor(y, p) <==> x == y
    ensures Xor(p, x) == Xor(p, y) <==> x == y
  {
  }

  /** A difference in the register survives any common suffix. */
  lemma {:induction false} UpdateInjective(x: Word, y: Word, data: seq<Byte>)
    requires Update(x, data) == Update(y, data)
    ensures x == y
  {
    hide Bits, Xor, Widen;
    if data != [] {
      var (u, v, p) := (Update(x, data[..|data| - 1]), Update(y, data[..|data| - 1]), Widen(data[|data| - 1]));
      BitsInjective(Xor(u, p), Xor(v, p), 8);
      XorCancels(u, v, p);
      UpdateInjective(x, y, data[..|data| - 1]);
    }
  }

  /** Up to four bytes as one little-endian register word. */
  function LittleEndian(ps: seq<Byte>): Word
    requires |ps| <= 4
  {
    if ps == [] then 0 else Xor(Widen(ps[0]), ShiftUp(LittleEndian(ps[1..])))
  }

  lemma {:induction false} LittleEndianBound(ps: seq<Byte>)
    requires |ps| <= 4
    ensures |ps| <= 3 ==> LittleEndian(ps) < 0x100_0000
    ensures |ps| <= 2 ==> LittleEndian(ps) < 0x1_0000
    ensures |ps| <= 1 ==> LittleEndian(ps) < 0x100
    ensures |ps| <= 0 ==> LittleEndian(ps) == 0
  {
    hide Xor, Widen, ShiftUp;
    if ps != [] {
      LittleEndianBound(ps[1..]);
      ShiftBound(ps[0], LittleEndian(ps[1..]));
    }
  }

  lemma ShiftBound(p: Byte, w: Word)
    ensures w < 0x1_0000 ==> Xor(Widen(p), ShiftUp(w)) < 0x100_0000
    ensures w < 0x100 ==> Xor(Widen(p), ShiftUp(w)) < 0x1_0000
    ensures w == 0 ==> Xor(Widen(p), ShiftUp(w)) < 0x100
  {
  }

  lemma XorAlgebra(a: Word, b: Word, c: Word)
    ensures Xor(Xor(a, b), c) == Xor(a, Xor(b, c)) && Xor(a, 0) == a
  {
  }

  /** Absorbing up to four bytes is absorbing them as one word and running the register. */
  lemma {:induction false} UpdateAsWord(c: Word, ps: seq<Byte>)
    requires |ps| <= 4
    ensures Update(c, ps) == Bits(Xor(c, LittleEndian(ps)), 8 * |ps|)
    decreases |ps|
  {
    hide Bit, Xor, Widen, ShiftUp;
    if ps == [] {
      XorAlgebra(c, 0, 0);
    } else {
      UpdateFirst(c, ps);
      FirstByteAsWord(c, ps);
      UpdateAsWord(ByteStep(c, ps[0]), ps[1..]);
      BitsCompose(Xor(c, LittleEndian(ps)), 8, 8 * |ps[1..]|);
    }
  }

  lemma UpdateFirst(c: Word, ps: seq<Byte>)
    requires ps != []
    ensures Update(c, ps) == Update(ByteStep(c, ps[0]), ps[1..])
  {
    hide ByteStep;
    UpdateConcat(c, ps[..1], ps[1..]);
    assert ps[..1] + ps[1..] == ps;
    assert Update(c, ps[..1][..0]) == c;
  }

  lemma FirstByteAsWord(c: Word, ps: seq<Byte>)
    requires 0 < |ps| <= 4
    ensures Bits(Xor(c, LittleEndian(ps)), 8) == Xor(ByteStep(c, ps[0]), LittleEndian(ps[1..]))
  {
    hide Bits, Xor, Widen, ShiftUp;
    var (p, w) := (Widen(ps[0]), LittleEndian(ps[1..]));
    LittleEndianBound(ps[1..]);
    XorAlgebra(c, p, ShiftUp(w));
    BitsLinear(Xor(c, p), ShiftUp(w), 8);
    BitsOfShifted(w);
  }

  lemma {:induction false} LittleEndianInjective(ps: seq<Byte>, qs: seq<Byte>)
    requires |ps| == |qs| <= 4 && LittleEndian(ps) == LittleEndian(qs)
    ensures ps == qs
  {
    hide Xor, Widen, ShiftUp;
    if ps != [] {
      LittleEndianBound(ps[1..]);
      LittleEndianBound(qs[1..]);
      UnpackLow(ps[0], LittleEndian(ps[1..]), qs[0], LittleEndian(qs[1..]));
      LittleEndianInjective(ps[1..], qs[1..]);
      assert ps == [ps[0]] + ps[1..] && qs == [qs[0]] + qs[1..];
    }
  }

  lemma UnpackLow(p: Byte, v: Word, q: Byte, w: Word)
    requires v < 0x100_0000 && w < 0x100_0000
    requires Xor(Widen(p), ShiftUp(v)) == Xor(Widen(q), ShiftUp(w))
    ensures p == q && v == w
  {
  }

  /** Burst detection: two strings that differ, but only inside a window of at most four
      consecutive bytes, never share a checksum. */
  lemma BurstDetected(pre: seq<Byte>, a: seq<Byte>, b: seq<Byte>, post: seq<Byte>)
    requires |a| == |b| <= 4 && a != b
    ensures Crc32(pre + a + post) != Crc32(pre + b + post)
  {
    hide Bits, Xor, ByteStep, LittleEndian;
    var c := Update(INIT, pre);
    UpdateConcat(INIT, pre + a, post);
    UpdateConcat(INIT, pre, a);
    UpdateConcat(INIT, pre + b, post);
    UpdateConcat(INIT, pre, b);
    XorCancels(Update(INIT, pre + a + post), Update(INIT, pre + b + post), 0xFFFFFFFF);
    if Crc32(pre + a + post) == Crc32(pre + b + post) {
      UpdateInjective(Update(c, a), Update(c, b), post);
      UpdateAsWord(c, a);
      UpdateAsWord(c, b);
      BitsInjective(Xor(c, LittleEndian(a)), Xor(c, LittleEndian(b)), 8 * |a|);
      XorCancels(LittleEndian(a), LittleEndian(b), c);
      LittleEndianInjective(a, b);
    }
  }
}
