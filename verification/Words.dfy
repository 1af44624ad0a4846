/** Numbers as machine words, digit by digit: different numbers are different words. */
module MachineWords {

  const TWO_32: nat := 0x1_0000_0000
  const TWO_64: nat := 0x1_0000_0000_0000_0000

  type U64 = x: nat | x < TWO_64
  type U32 = x: nat | x < TWO_32

  function Nibble(d: nat): bv4
    requires d < 0x10
  {
    d as bv4
  }

  function Join4(a: bv4, b: bv4): bv8 { ((a as bv8) << 4) | (b as bv8) }
  function Join8(a: bv8, b: bv8): bv16 { ((a as bv16) << 8) | (b as bv16) }
  function Join16(a: bv16, b: bv16): bv32 { ((a as bv32) << 16) | (b as bv32) }
  function Join32(a: bv32, b: bv32): bv64 { ((a as bv64) << 32) | (b as bv64) }

  function Byte(n: nat): bv8
    requires n < 0x100
  {
    Join4(Nibble(n / 0x10), Nibble(n % 0x10))
  }

  function Word16(n: nat): bv16
    requires n < 0x1_0000
  {
    Join8(Byte(n / 0x100), Byte(n % 0x100))
  }

  function Word32(n: U32): bv32 {
    Join16(Word16(n / 0x1_0000), Word16(n % 0x1_0000))
  }

  function Word64(n: U64): bv64 {
    Join32(Word32(n / TWO_32), Word32(n % TWO_32))
  }

  // ---------------------------------------------------------------- injectivity

  lemma NibbleBack(d: nat)
    requires d < 0x10
    ensures (d as bv4) as nat == d
  {
  }

  lemma NibblesDiffer(x: nat, y: nat)
    requires x < 0x10 && y < 0x10 && Nibble(x) == Nibble(y)
    ensures x == y
  {
    NibbleBack(x);
    NibbleBack(y);
  }

  lemma JoinsDiffer4(a: bv4, b: bv4, c: bv4, d: bv4)
    ensures Join4(a, b) == Join4(c, d) ==> a == c && b == d
  {
  }

  lemma BytesDiffer(x: nat, y: nat)
    requires x < 0x100 && y < 0x100 && Byte(x) == Byte(y)
    ensures x == y
  {
    JoinsDiffer4(Nibble(x / 0x10), Nibble(x % 0x10), Nibble(y / 0x10), Nibble(y % 0x10));
    NibblesDiffer(x / 0x10, y / 0x10);
    NibblesDiffer(x % 0x10, y % 0x10);
  }

  lemma JoinsDiffer8(a: bv8, b: bv8, c: bv8, d: bv8)
    ensures Join8(a, b) == Join8(c, d) ==> a == c && b == d
  {
  }

  function High16(x: bv32): bv16 { (x >> 16) as bv16 }
  function Low16(x: bv32): bv16 { (x & 0xFFFF) as bv16 }
  function High32(x: bv64): bv32 { (x >> 32) as bv32 }
  function Low32(x: bv64): bv32 { (x & 0xFFFF_FFFF) as bv32 }

  lemma Apart16(a: bv16, b: bv16)
    ensures High16(Join16(a, b)) == a && Low16(Join16(a, b)) == b
  {
  }

  lemma Apart32(a: bv32, b: bv32)
    ensures High32(Join32(a, b)) == a && Low32(Join32(a, b)) == b
  {
  }

  lemma JoinsDiffer16(a: bv16, b: bv16, c: bv16, d: bv16)
    requires Join16(a, b) == Join16(c, d)
    ensures a == c && b == d
  {
    Apart16(a, b);
    Apart16(c, d);
  }

  lemma JoinsDiffer32(a: bv32, b: bv32, c: bv32, d: bv32)
    requires Join32(a, b) == Join32(c, d)
    ensures a == c && b == d
  {
    Apart32(a, b);
    Apart32(c, d);
  }

  lemma Words16Differ(x: nat, y: nat)
    requires x < 0x1_0000 && y < 0x1_0000 && Word16(x) == Word16(y)
    ensures x == y
  {
    JoinsDiffer8(Byte(x / 0x100), Byte(x % 0x100), Byte(y / 0x100), Byte(y % 0x100));
    BytesDiffer(x / 0x100, y / 0x100);
    BytesDiffer(x % 0x100, y % 0x100);
  }

  lemma Words32Differ(x: U32, y: U32)
    ensures Word32(x) == Word32(y) <==> x == y
  {
    if Word32(x) == Word32(y) {
      JoinsDiffer16(Word16(x / 0x1_0000), Word16(x % 0x1_0000), Word16(y / 0x1_0000), Word16(y % 0x1_0000));
      Words16Differ(x / 0x1_0000, y / 0x1_0000);
      Words16Differ(x % 0x1_0000, y % 0x1_0000);
    }
  }

  /** No two numbers share a word. */
  lemma Words64Differ(x: U64, y: U64)
    ensures Word64(x) == Word64(y) <==> x == y
  {
    if Word64(x) == Word64(y) {
      JoinsDiffer32(Word32(x / TWO_32), Word32(x % TWO_32), Word32(y / TWO_32), Word32(y % TWO_32));
      Words32Differ(x / TWO_32, y / TWO_32);
      Words32Differ(x % TWO_32, y % TWO_32);
    }
  }

  // ---------------------------------------------------------------- place values

  lemma NibbleOf(b: bv4)
    ensures b as nat < 0x10 && Nibble(b as nat) == b
  {
  }

  lemma TwoNibbles(hi: nat, lo: nat)
    requires hi < 0x10 && lo < 0x10
    ensures Byte(0x10 * hi + lo) == ((Nibble(hi) as bv8) << 4) | (Nibble(lo) as bv8)
  {
    assert (0x10 * hi + lo) / 0x10 == hi && (0x10 * hi + lo) % 0x10 == lo;
  }

  lemma TwoBytes(hi: nat, lo: nat)
    requires hi < 0x100 && lo < 0x100
    ensures Word16(0x100 * hi + lo) == ((Byte(hi) as bv16) << 8) | (Byte(lo) as bv16)
  {
    assert (0x100 * hi + lo) / 0x100 == hi && (0x100 * hi + lo) % 0x100 == lo;
  }

  lemma TwoQuarters(hi: nat, lo: nat)
    requires hi < 0x1_0000 && lo < 0x1_0000
    ensures Word32(0x1_0000 * hi + lo) == ((Word16(hi) as bv32) << 16) | (Word16(lo) as bv32)
  {
    assert (0x1_0000 * hi + lo) / 0x1_0000 == hi && (0x1_0000 * hi + lo) % 0x1_0000 == lo;
  }

  /** A number is the word of its two halves. */
  lemma TwoHalves(hi: U32, lo: U32)
    ensures Word64(TWO_32 * hi + lo) == ((Word32(hi) as bv64) << 32) | (Word32(lo) as bv64)
  {
    assert (TWO_32 * hi + lo) / TWO_32 == hi && (TWO_32 * hi + lo) % TWO_32 == lo;
  }

  // ---------------------------------------------------------------- known values

  lemma SmallBytes()
    ensures Byte(0) == 0 && Byte(1) == 1 && Byte(2) == 2 && Byte(7) == 7 && Byte(100) == 100
  {
    assert Nibble(0) == 0 && Nibble(1) == 1 && Nibble(2) == 2 && Nibble(7) == 7;
    assert Nibble(6) == 6 && Nibble(4) == 4;
  }

  lemma SmallHalves()
    ensures Word16(0) == 0 && Word16(1) == 1 && Word16(7) == 7 && Word16(100) == 100 && Word16(512) == 512
  {
    SmallBytes();
  }

  lemma SmallQuarters()
    ensures Word32(0) == 0 && Word32(7) == 7 && Word32(100) == 100 && Word32(512) == 512 && Word32(65536) == 65536
  {
    SmallHalves();
  }

  lemma SmallWords()
    ensures Word64(0) == 0 && Word64(100) == 100 && Word64(65536) == 65536 && Word32(512) == 512 && Word64(7) == 7
  {
    SmallQuarters();
  }
}
