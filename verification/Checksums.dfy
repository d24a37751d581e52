/**
 * The two checksums of a PNG file: Adler-32, against the sums of RFC 1950, and CRC-32, against
 * the byte-at-a-time table algorithm of the PNG specification.
 */
module Checksums {
  import opened Binary

  // ---- Adler-32 ---------------------------------------------------------------------------

  const MOD := 65521

  function Sum(d: Bytes): nat {
    if d == [] then 0 else d[0] + Sum(d[1..])
  }

  /** Each byte weighted by the number of bytes from it to the end, itself included. */
  function WeightedSum(d: Bytes): nat {
    if d == [] then 0 else |d| * d[0] + WeightedSum(d[1..])
  }

  /** The value that section 2.2 of RFC 1950 requires. */
  function Adler(d: Bytes): u32 {
    (|d| + WeightedSum(d)) % MOD * 0x1_0000 + (1 + Sum(d)) % MOD
  }

  lemma {:induction false} SumsGrow(d: Bytes, x: u8)
    ensures Sum(d + [x]) == Sum(d) + x
    ensures WeightedSum(d + [x]) == WeightedSum(d) + Sum(d) + x
  {
    if d == [] {
      assert d + [x] == [x];
    } else {
      assert (d + [x])[1..] == d[1..] + [x];
      SumsGrow(d[1..], x);
      assert (|d| + 1) * d[0] == |d| * d[0] + d[0];
    }
  }

  /** Reducing at every step gives the residues of the unreduced sums. */
  lemma ResidueStep(a: nat, b: nat, s: nat, w: nat, x: u8)
    requires a == s % MOD && b == w % MOD
    ensures (a + x) % MOD == (s + x) % MOD
    ensures (b + (a + x) % MOD) % MOD == (w + (s + x)) % MOD
  {
  }

  method Adler32(data: Bytes) returns (r: u32)
    ensures r == Adler(data)
  {
    var a: u32, b: u32 := 1, 0;
    for i := 0 to |data|
      invariant a == (1 + Sum(data[..i])) % MOD
      invariant b == (i + WeightedSum(data[..i])) % MOD
    {
      SumsGrow(data[..i], data[i]);
      assert data[..i + 1] == data[..i] + [data[i]];
      ResidueStep(a, b, 1 + Sum(data[..i]), i + WeightedSum(data[..i]), data[i]);
      var sum: u32 := a + data[i];
      a := sum % MOD;
      var total: u32 := b + a;
      b := total % MOD;
    }
    assert data[..|data|] == data;
    // `(b << 16) | a`, on two values below 2^16
    r := b * 0x1_0000 + a;
  }

  // ---- CRC-32 -----------------------------------------------------------------------------

  const POLYNOMIAL: bv32 := 0xEDB8_8320

  function Xor(x: bv32, y: bv32): bv32 {
    x ^ y
  }

  function Half(c: bv32): bv32 {
    c >> 1
  }

  predicate Odd(c: bv32) {
    c & 1 != 0
  }

  /** One bit of the division by the reflected polynomial. */
  function Shift(c: bv32): bv32 {
    if Odd(c) then Xor(Half(c), POLYNOMIAL) else Half(c)
  }

  function Shifts(c: bv32, k: nat): bv32 {
    if k == 0 then c else Shift(Shifts(c, k - 1))
  }

  /** The table entry of the PNG specification's algorithm for one byte. */
  function Table(byte: bv32): bv32 {
    Shifts(byte, 8)
  }

  /** `byte as u32` */
  function Widened(byte: u8): bv32 {
    (byte as bv8) as bv32
  }

  function TableStep(c: bv32, byte: bv32): bv32 {
    Xor(Table((c ^ byte) & 0xFF), c >> 8)
  }

  /** The table-driven register after the bytes of `d`. */
  function Register(d: Bytes): bv32 {
    if d == [] then 0xFFFF_FFFF
    else TableStep(Register(d[..|d| - 1]), Widened(d[|d| - 1]))
  }

  function Crc(d: Bytes): u32 {
    Xor(Register(d), 0xFFFF_FFFF) as int
  }

  lemma HalvesOfXor(x: bv32, y: bv32)
    ensures Half(Xor(x, y)) == Xor(Half(x), Half(y))
    ensures Odd(Xor(x, y)) == (Odd(x) != Odd(y))
  {
  }

  lemma XorCommutes(x: bv32, y: bv32)
    ensures Xor(x, y) == Xor(y, x)
  {
  }

  lemma XorAssociates(x: bv32, y: bv32, p: bv32)
    ensures Xor(x, Xor(y, p)) == Xor(Xor(x, y), p)
  {
  }

  lemma XorSwaps(x: bv32, y: bv32, p: bv32)
    ensures Xor(Xor(x, p), y) == Xor(Xor(x, y), p)
  {
    hide Xor;
    XorAssociates(x, p, y);
    XorAssociates(x, y, p);
    XorCommutes(p, y);
  }

  lemma XorTwice(x: bv32, p: bv32)
    ensures Xor(Xor(x, p), p) == x
  {
  }

  lemma XorCancels(x: bv32, y: bv32, p: bv32)
    ensures Xor(Xor(x, p), Xor(y, p)) == Xor(x, y)
  {
    hide Xor;
    XorSwaps(x, Xor(y, p), p);
    XorAssociates(x, y, p);
    XorTwice(Xor(x, y), p);
  }

  lemma ShiftIsLinear(x: bv32, y: bv32)
    ensures Shift(Xor(x, y)) == Xor(Shift(x), Shift(y))
  {
    hide Xor, Half, Odd;
    HalvesOfXor(x, y);
    XorCancels(Half(x), Half(y), POLYNOMIAL);
    XorSwaps(Half(x), Half(y), POLYNOMIAL);
    XorAssociates(Half(x), Half(y), POLYNOMIAL);
  }

  lemma {:induction false} ShiftsAreLinear(x: bv32, y: bv32, k: nat)
    ensures Shifts(Xor(x, y), k) == Xor(Shifts(x, k), Shifts(y, k))
  {
    hide Xor, Shift;
    if k > 0 {
      ShiftsAreLinear(x, y, k - 1);
      ShiftIsLinear(Shifts(x, k - 1), Shifts(y, k - 1));
    }
  }

  /** Eight shifts of a word whose low byte is clear never meet a set bit. */
  lemma HighBytesShiftOut(c: bv32)
    requires c & 0xFF == 0
    ensures Shifts(c, 8) == c >> 8
  {
    assert Shifts(c, 1) == c >> 1;
    assert Shifts(c, 2) == c >> 2;
    assert Shifts(c, 3) == c >> 3;
    assert Shifts(c, 4) == c >> 4;
    assert Shifts(c, 5) == c >> 5;
    assert Shifts(c, 6) == c >> 6;
    assert Shifts(c, 7) == c >> 7;
  }

  lemma LowAndHigh(c: bv32, byte: bv32)
    requires byte <= 0xFF
    ensures c ^ byte == Xor((c ^ byte) & 0xFF, (c ^ byte) & 0xFFFF_FF00)
    ensures ((c ^ byte) & 0xFFFF_FF00) & 0xFF == 0
    ensures ((c ^ byte) & 0xFFFF_FF00) >> 8 == c >> 8
  {
  }

  /** The bit loop over one byte is one step of the table-driven algorithm. */
  lemma ByteStep(c: bv32, byte: bv32)
    requires byte <= 0xFF
    ensures Shifts(c ^ byte, 8) == TableStep(c, byte)
  {
    hide Xor, Shifts;
    LowAndHigh(c, byte);
    ShiftsAreLinear((c ^ byte) & 0xFF, (c ^ byte) & 0xFFFF_FF00, 8);
    HighBytesShiftOut((c ^ byte) & 0xFFFF_FF00);
  }

  method ByteLoop(c: bv32, byte: bv32) returns (r: bv32)
    requires byte <= 0xFF
    ensures r == TableStep(c, byte)
  {
    hide TableStep, Xor, Half, Odd;
    r := c ^ byte;
    ghost var start := r;
    for k := 0 to 8
      invariant r == Shifts(start, k)
    {
      r := if Odd(r) then Xor(Half(r), POLYNOMIAL) else Half(r);
    }
    ByteStep(c, byte);
  }

  lemma WidenedIsSmall(byte: u8)
    ensures Widened(byte) <= 0xFF
  {
  }

  method Crc32(data: Bytes) returns (r: u32)
    ensures r == Crc(data)
  {
    hide TableStep, Widened;
    var crc: bv32 := 0xFFFF_FFFF;
    for i := 0 to |data|
      invariant crc == Register(data[..i])
    {
      WidenedIsSmall(data[i]);
      crc := ByteLoop(crc, Widened(data[i]));
      assert data[..i + 1][..i] == data[..i];
    }
    assert data[..|data|] == data;
    r := Xor(crc, 0xFFFF_FFFF) as int;
  }
}
