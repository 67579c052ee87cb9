/** Fixed-width integers as ranges of the unbounded ones, and their little-endian bytes. */
module Words {

  type Byte = x: int | 0 <= x < 0x100
  type U16 = x: int | 0 <= x < 0x1_0000
  type U32 = x: int | 0 <= x < 0x1_0000_0000
  type U64 = x: int | 0 <= x < 0x1_0000_0000_0000_0000
  type I16 = x: int | -0x8000 <= x < 0x8000
  type I32 = x: int | -0x8000_0000 <= x < 0x8000_0000
  type I64 = x: int | -0x8000_0000_0000_0000 <= x < 0x8000_0000_0000_0000

  // The two's-complement reading of a word, and back.
  function SignedI16(x: U16): I16 {
    if x < 0x8000 then x else x - 0x1_0000
  }

  function SignedI32(x: U32): I32 {
    if x < 0x8000_0000 then x else x - 0x1_0000_0000
  }

  function SignedI64(x: U64): I64 {
    if x < 0x8000_0000_0000_0000 then x else x - 0x1_0000_0000_0000_0000
  }

  function UnsignedI16(x: I16): U16 {
    if x < 0 then x + 0x1_0000 else x
  }

  function UnsignedI64(x: I64): U64 {
    if x < 0 then x + 0x1_0000_0000_0000_0000 else x
  }

  function LowU32(x: int): U32 {
    x % 0x1_0000_0000
  }

  function LowI32(x: int): I32 {
    SignedI32(LowU32(x))
  }

  // An arithmetic shift: Euclidean division by a positive number rounds down.
  function HighU32(x: I64): U32 {
    LowU32(x / 0x1_0000_0000)
  }

  function Word16(b0: Byte, b1: Byte): U16 {
    b0 + 0x100 * b1
  }

  function Word32(b0: Byte, b1: Byte, b2: Byte, b3: Byte): U32 {
    b0 + 0x100 * b1 + 0x1_0000 * b2 + 0x100_0000 * b3
  }

  function Bytes16(x: U16): (b: seq<Byte>)
    ensures |b| == 2
  {
    [x % 0x100, x / 0x100]
  }

  function Bytes32(x: U32): (b: seq<Byte>)
    ensures |b| == 4
  {
    [x % 0x100, x / 0x100 % 0x100, x / 0x100 / 0x100 % 0x100, x / 0x100 / 0x100 / 0x100]
  }

  lemma SplitByte(b: Byte, rest: nat)
    ensures (b + 0x100 * rest) % 0x100 == b && (b + 0x100 * rest) / 0x100 == rest
  {
  }

  lemma Bytes32OfWord(b0: Byte, b1: Byte, b2: Byte, b3: Byte)
    ensures Bytes32(Word32(b0, b1, b2, b3)) == [b0, b1, b2, b3]
  {
    SplitByte(b0, b1 + 0x100 * (b2 + 0x100 * b3));
    SplitByte(b1, b2 + 0x100 * b3);
    SplitByte(b2, b3);
  }

  lemma Word32OfBytes(x: U32)
    ensures var b := Bytes32(x); Word32(b[0], b[1], b[2], b[3]) == x
  {
  }

  function ShiftLeft(x: nat, count: nat): nat
    decreases count
  {
    if count == 0 then x else ShiftLeft(2 * x, count - 1)
  }

  function ShiftRight(x: nat, count: nat): nat
    decreases count
  {
    if count == 0 then x else ShiftRight(x / 2, count - 1)
  }

  // Bitwise and and or, bit by bit from the lowest.
  function BitAnd(a: nat, b: nat): (r: nat)
    ensures r <= a && r <= b
  {
    if a == 0 || b == 0 then 0
    else 2 * BitAnd(a / 2, b / 2) + (if a % 2 == 1 && b % 2 == 1 then 1 else 0)
  }

  function BitOr(a: nat, b: nat): (r: nat)
    ensures r <= a + b
    decreases a + b
  {
    if a == 0 then b
    else if b == 0 then a
    else 2 * BitOr(a / 2, b / 2) + (if a % 2 == 1 || b % 2 == 1 then 1 else 0)
  }

  predicate Bit(a: nat, i: nat)
    decreases i
  {
    if i == 0 then a % 2 == 1 else Bit(a / 2, i - 1)
  }

  ghost predicate BitsWithin(a: nat, b: nat) {
    forall i: nat :: Bit(a, i) ==> Bit(b, i)
  }

  // Masking keeps a number exactly when all its bits are in the mask.
  lemma {:induction false} AndContainment(a: nat, b: nat)
    ensures BitAnd(a, b) == a <==> BitsWithin(a, b)
    decreases a
  {
    if a == 0 {
      forall i: nat
        ensures !Bit(0, i)
      {
        ZeroHasNoBit(i);
      }
    } else {
      var i := HasBit(a);
      if b == 0 {
        ZeroHasNoBit(i);
      } else {
        AndContainment(a / 2, b / 2);
        HalvesWithin(a, b);
      }
    }
  }

  lemma {:induction false} ZeroHasNoBit(i: nat)
    ensures !Bit(0, i)
  {
    if i > 0 {
      ZeroHasNoBit(i - 1);
    }
  }

  lemma {:induction false} HasBit(a: nat) returns (i: nat)
    requires a > 0
    ensures Bit(a, i)
  {
    if a % 2 == 1 {
      i := 0;
    } else {
      var j := HasBit(a / 2);
      i := j + 1;
    }
  }

  lemma HalvesWithin(a: nat, b: nat)
    ensures BitsWithin(a, b) <==> (a % 2 == 1 ==> b % 2 == 1) && BitsWithin(a / 2, b / 2)
  {
    if BitsWithin(a, b) {
      assert Bit(a, 0) ==> Bit(b, 0);
      forall i: nat | Bit(a / 2, i)
        ensures Bit(b / 2, i)
      {
        assert Bit(a, i + 1) ==> Bit(b, i + 1);
      }
    }
    if (a % 2 == 1 ==> b % 2 == 1) && BitsWithin(a / 2, b / 2) {
      forall i: nat | Bit(a, i)
        ensures Bit(b, i)
      {
        assert i > 0 && Bit(a / 2, i - 1) ==> Bit(b / 2, i - 1);
      }
    }
  }
}
