/** Bytes, and their value as an integer. */
module Bytes {

  type Byte = bv8

  function ToByte(n: int): Byte
    requires 0 <= n < 256
  {
    n as Byte
  }

  function ToInt(b: Byte): (n: int)
    ensures 0 <= n < 256
  {
    b as int
  }

  lemma IntOfByte(b: Byte)
    ensures ToByte(ToInt(b)) == b
  {
  }

  lemma Successor(b: Byte)
    requires b != 255
    ensures ToInt(b + 1) == ToInt(b) + 1
  {
  }

  lemma {:induction false} ByteWithValue(n: int) returns (b: Byte)
    requires 0 <= n < 256
    ensures ToInt(b) == n
    decreases n
  {
    if n == 0 {
      b := 0;
    } else {
      b := ByteWithValue(n - 1);
      Successor(b);
      b := b + 1;
    }
  }

  lemma ByteOfInt(n: int)
    requires 0 <= n < 256
    ensures ToInt(ToByte(n)) == n
  {
    var b := ByteWithValue(n);
    IntOfByte(b);
  }
}
