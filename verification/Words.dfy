/** 32-bit words as the four bytes they consist of, and the little-endian memory that the Cortex-M3 core
    loads them from. Keeping the bytes apart makes `__REV` and the byte order of the cryptographic
    processor a matter of which byte goes where. */
module Words {

  // b3 is the most significant byte
  datatype Word = Word(b3: bv8, b2: bv8, b1: bv8, b0: bv8)

  const ZERO := Word(0, 0, 0, 0)

  // The intrinsic __REV
  function Rev(w: Word): Word {
    Word(w.b0, w.b1, w.b2, w.b3)
  }

  // The number that four bytes stand for, most significant byte first
  function Number(b3: bv8, b2: bv8, b1: bv8, b0: bv8): bv32 {
    ((b3 as bv32) << 24) | ((b2 as bv32) << 16) | ((b1 as bv32) << 8) | (b0 as bv32)
  }

  // Most significant byte first
  function Bytes(w: Word): (r: seq<bv8>)
    ensures |r| == 4
  {
    [w.b3, w.b2, w.b1, w.b0]
  }

  // *(uint32_t*)a on a little-endian core
  function Load(m: seq<bv8>, a: nat): Word
    requires a + 4 <= |m|
  {
    Word(m[a + 3], m[a + 2], m[a + 1], m[a])
  }

  // `*(uint32_t*)a = w`
  method Store(ram: array<bv8>, a: nat, w: Word)
    requires a + 4 <= ram.Length
    modifies ram
    ensures ram[..] == Patch(old(ram[..]), a, Bytes(Rev(w)))
  {
    ram[a], ram[a + 1], ram[a + 2], ram[a + 3] := w.b0, w.b1, w.b2, w.b3;
  }

  // Memory m after the bytes b were stored from address a on
  function Patch(m: seq<bv8>, a: nat, b: seq<bv8>): (r: seq<bv8>)
    requires a + |b| <= |m|
    ensures |r| == |m|
    ensures r[a..a + |b|] == b
    ensures forall x :: 0 <= x < |m| && !(a <= x < a + |b|) ==> r[x] == m[x]
  {
    m[..a] + b + m[a + |b|..]
  }

  // Loading little-endian and reversing is reading the number most significant byte first
  lemma RevLoadIsBigEndian(m: seq<bv8>, a: nat)
    requires a + 4 <= |m|
    ensures Bytes(Rev(Load(m, a))) == m[a..a + 4]
  {
  }

  // The intrinsic on numbers: Rev swaps the bytes end for end
  lemma RevNumber(w: Word)
    ensures var n := Number(w.b3, w.b2, w.b1, w.b0);
            Number(Rev(w).b3, Rev(w).b2, Rev(w).b1, Rev(w).b0) ==
            (n << 24) | ((n & 0xFF00) << 8) | ((n >> 8) & 0xFF00) | (n >> 24)
  {
    RevBytes(w.b3, w.b2, w.b1, w.b0);
  }

  lemma RevBytes(b3: bv8, b2: bv8, b1: bv8, b0: bv8)
    ensures var n := Number(b3, b2, b1, b0);
            Number(b0, b1, b2, b3) == (n << 24) | ((n & 0xFF00) << 8) | ((n >> 8) & 0xFF00) | (n >> 24)
  {
  }
}
