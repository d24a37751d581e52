/** Bytes and fixed-width integers, and their big- and little-endian layouts. */
module Binary {
  type u8 = x: int | 0 <= x < 0x100
  type u16 = x: int | 0 <= x < 0x1_0000
  type u32 = x: int | 0 <= x < 0x1_0000_0000

  type Bytes = seq<u8>

  /** Little-endian, as `to_le_bytes` writes it: the least significant byte first. */
  function Le32(x: u32): (b: Bytes)
    ensures |b| == 4
  {
    [x % 0x100, x / 0x100 % 0x100, x / 0x100 / 0x100 % 0x100, x / 0x100 / 0x100 / 0x100]
  }

  function FromLe32(b: Bytes): u32
    requires |b| == 4
  {
    (b[0] as int) + 0x100 * ((b[1] as int) + 0x100 * ((b[2] as int) + 0x100 * (b[3] as int)))
  }

  /** Big-endian, as `to_be_bytes` writes it: the most significant byte first. */
  function Be32(x: u32): (b: Bytes)
    ensures |b| == 4
  {
    var le := Le32(x);
    [le[3], le[2], le[1], le[0]]
  }

  function FromBe32(b: Bytes): u32
    requires |b| == 4
  {
    FromLe32([b[3], b[2], b[1], b[0]])
  }

  function Le16(x: u16): (b: Bytes)
    ensures |b| == 2
  {
    [x % 0x100, x / 0x100]
  }

  function FromLe16(b: Bytes): u16
    requires |b| == 2
  {
    (b[0] as int) + 0x100 * (b[1] as int)
  }

  lemma Le32RoundTrip(x: u32)
    ensures FromLe32(Le32(x)) == x
  {
    var y := x / 0x100;
    var z := y / 0x100;
    assert x == 0x100 * y + x % 0x100 && y == 0x100 * z + y % 0x100 && z == 0x100 * (z / 0x100) + z % 0x100;
  }

  lemma Be32RoundTrip(x: u32)
    ensures FromBe32(Be32(x)) == x
  {
    var le := Le32(x);
    assert [le[0], le[1], le[2], le[3]] == le;
    Le32RoundTrip(x);
  }

  lemma Le16RoundTrip(x: u16)
    ensures FromLe16(Le16(x)) == x
  {
  }

  // ---- consecutive pieces, as the slice method `chunks` cuts them ---------------------------

  function Chunks(s: Bytes, n: nat): seq<Bytes>
    requires n > 0
  {
    if s == [] then []
    else if |s| <= n then [s]
    else [s[..n]] + Chunks(s[n..], n)
  }

  function Joined(pieces: seq<Bytes>): Bytes {
    if pieces == [] then [] else pieces[0] + Joined(pieces[1..])
  }

  /** Cutting loses nothing; every piece but the last is full and the last is not empty. */
  lemma {:induction false} ChunksPartition(s: Bytes, n: nat)
    requires n > 0
    ensures Joined(Chunks(s, n)) == s
    ensures forall k :: 0 <= k < |Chunks(s, n)| ==> 0 < |Chunks(s, n)[k]| <= n
    ensures forall k :: 0 <= k < |Chunks(s, n)| - 1 ==> |Chunks(s, n)[k]| == n
  {
    if s != [] {
      if |s| <= n {
        assert Joined([s]) == s + Joined([]);
      } else {
        ChunksPartition(s[n..], n);
        assert s == s[..n] + s[n..];
        assert Chunks(s, n)[1..] == Chunks(s[n..], n);
      }
    }
  }

  /** The piece number k starts at k * n, and it is the last exactly when (k + 1) * n reaches the end. */
  lemma {:induction false} ChunkPosition(s: Bytes, n: nat, k: nat)
    requires n > 0 && k < |Chunks(s, n)|
    ensures (k + 1) * n >= |s| <==> k + 1 == |Chunks(s, n)|
  {
    if |s| <= n {
      assert (k + 1) * n == k * n + n;
    } else {
      assert (k + 1) * n == k * n + n;
      if k > 0 {
        ChunkPosition(s[n..], n, k - 1);
      } else {
        assert Chunks(s[n..], n) != [];
      }
    }
  }
}
