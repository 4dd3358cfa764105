// The record checksum of epk_env.c: CRC-32, bit by bit, least significant bit
// first. Its algebra plays no part in the proofs: a cut write is assumed to
// leave a record whose checksum does not match.
module Crc {
  import opened Bytes

  type Word = w: int | 0 <= w < 0x1_0000_0000

  function Pow2(n: nat): nat { if n == 0 then 1 else 2 * Pow2(n - 1) }

  /** Exclusive or of the low `n` bits. */
  function XorBits(a: nat, b: nat, n: nat): (r: nat)
    ensures r < Pow2(n)
  {
    if n == 0 then 0 else (a + b) % 2 + 2 * XorBits(a / 2, b / 2, n - 1)
  }

  function Xor(a: Word, b: Word): Word {
    assert Pow2(8) == 0x100 && Pow2(16) == 0x1_0000 && Pow2(24) == 0x100_0000 && Pow2(32) == 0x1_0000_0000;
    XorBits(a, b, 32)
  }

  function Shifts(crc: Word, n: nat): Word
    decreases n
  {
    if n == 0 then crc else Shifts(Xor(crc / 2, if crc % 2 == 1 then 0xedb88320 else 0), n - 1)
  }

  /** The register after these bytes. */
  function Register(data: seq<Byte>): Word {
    if data == [] then 0xFFFF_FFFF
    else Shifts(Xor(Register(data[..|data| - 1]), data[|data| - 1]), 8)
  }

  function Checksum(data: seq<Byte>): Word {
    0xFFFF_FFFF - Register(data)
  }

  // ---- which polynomial it is ------------------------------------------------------------

  lemma XorHalves(a: nat, a0: nat, b: nat, b0: nat, n: nat)
    requires n > 0
    ensures XorBits(2 * a + a0, 2 * b + b0, n) == (a0 + b0) % 2 + 2 * XorBits(a + a0 / 2, b + b0 / 2, n - 1)
  {
    var x, y := 2 * a + a0, 2 * b + b0;
    assert x / 2 == a + a0 / 2 && y / 2 == b + b0 / 2 && (x + y) % 2 == (a0 + b0) % 2;
  }

  lemma XorNoBits(a: nat, b: nat)
    ensures XorBits(a, b, 0) == 0
  {
  }

  /** High and low parts are combined apart. */
  lemma {:induction false} XorParts(a1: nat, a0: nat, b1: nat, b0: nat, k: nat, n: nat)
    requires a0 < Pow2(k) && b0 < Pow2(k)
    ensures XorBits(Pow2(k) * a1 + a0, Pow2(k) * b1 + b0, k + n) == Pow2(k) * XorBits(a1, b1, n) + XorBits(a0, b0, k)
  {
    hide XorBits, Pow2;
    if k > 0 {
      Scaled(k, a1, a0);
      Scaled(k, b1, b0);
      Scaled(k, XorBits(a1, b1, n), 0);
      XorHalves(Pow2(k - 1) * a1, a0, Pow2(k - 1) * b1, b0, k + n);
      XorHalves(0, a0, 0, b0, k);
      XorParts(a1, a0 / 2, b1, b0 / 2, k - 1, n);
    } else {
      Scaled(0, a1, a0);
      Scaled(0, b1, b0);
      Scaled(0, XorBits(a1, b1, n), 0);
      XorNoBits(0, 0);
    }
  }

  lemma Scaled(k: nat, a: nat, r: nat)
    ensures k == 0 ==> Pow2(k) * a == a && Pow2(k) == 1
    ensures k > 0 ==> Pow2(k) * a == 2 * (Pow2(k - 1) * a) && (r < Pow2(k) ==> r / 2 < Pow2(k - 1))
  {
    if k > 0 { Twice(Pow2(k - 1), a); }
  }

  lemma Twice(m: nat, a: nat)
    ensures 2 * m * a == 2 * (m * a)
  {
  }

  /** Exclusive or with ones is the complement. */
  lemma {:induction false} XorOnes(k: nat, p: nat)
    requires p < Pow2(k)
    ensures Pow2(k) > 0 && XorBits(Pow2(k) - 1, p, k) == Pow2(k) - 1 - p
  {
    hide XorBits;
    if k == 0 {
      XorNoBits(0, 0);
    } else {
      XorOnes(k - 1, p / 2);
      XorHalves(Pow2(k - 1) - 1, 1, p / 2, p % 2, k);
      assert 2 * (p / 2) + p % 2 == p;
    }
  }

  lemma {:induction false} XorZeros(k: nat, p: nat)
    requires p < Pow2(k)
    ensures XorBits(0, p, k) == p
  {
    if k > 0 { XorZeros(k - 1, p / 2); }
  }

  /** Zeros are shifted out. */
  lemma {:induction false} ShiftOut(q: nat, k: nat, n: nat)
    requires Pow2(k) * q < 0x1_0000_0000
    ensures q < 0x1_0000_0000 && Shifts(Pow2(k) * q, k + n) == Shifts(q, n)
  {
    if k > 0 {
      Twice(Pow2(k - 1), q);
      ShiftEven(Pow2(k - 1) * q, k + n);
      ShiftOut(q, k - 1, n);
    }
  }

  lemma ShiftEven(half: nat, n: nat)
    requires 2 * half < 0x1_0000_0000 && n > 0
    ensures Shifts(2 * half, n) == Shifts(half, n - 1)
  {
    XorNothing(half);
  }

  lemma XorNothing(a: Word)
    ensures Xor(a, 0) == a
  {
    Powers();
    XorCommutes(a, 0, 32);
    XorZeros(32, a);
  }

  lemma Powers()
    ensures Pow2(7) == 0x80 && Pow2(8) == 0x100 && Pow2(24) == 0x100_0000 && Pow2(32) == 0x1_0000_0000
  {
    assert Pow2(8) == 0x100;
    assert Pow2(16) == 0x100 * Pow2(8);
    assert Pow2(24) == 0x100 * Pow2(16);
    assert Pow2(32) == 0x100 * Pow2(24);
  }

  lemma {:induction false} XorCommutes(a: nat, b: nat, n: nat)
    ensures XorBits(a, b, n) == XorBits(b, a, n)
  {
    if n > 0 { XorCommutes(a / 2, b / 2, n - 1); }
  }

  /** The complement of the generator's low bits beside its high byte. */
  lemma GeneratorFlipped()
    ensures Xor(0x00FF_FFFF, 0xEDB8_8320) == 0xED47_7CDF
  {
    Powers();
    XorParts(0, 0xFF_FFFF, 0xED, 0xB8_8320, 24, 8);
    XorOnes(24, 0xB8_8320);
    XorZeros(8, 0xED);
  }

  lemma RegisterOfByte(b: Byte)
    ensures Register([b]) == Shifts(0xFFFF_FFFF - b, 8)
  {
    Powers();
    assert [b][..0] == [];
    XorOnes(32, b);
  }

  /** Check values: of nothing, and of two bytes whose low bits the complement clears. The last
      one shows the generator polynomial. */
  lemma CheckValues()
    ensures Checksum([]) == 0
    ensures Checksum([0xFF]) == 0xFF00_0000
    ensures Checksum([0x7F]) == 0x12B8_8320
  {
    hide Register;
    RegisterOfNothing();
    CheckOnes();
    CheckGenerator();
  }

  lemma CheckOnes()
    ensures Register([0xFF]) == 0xFF_FFFF
  {
    hide XorBits, Xor, Register, Shifts, Pow2;
    Powers();
    RegisterOfByte(0xFF);
    ShiftOut(0xFF_FFFF, 8, 0);
    LastShift();
  }

  lemma CheckGenerator()
    ensures Register([0x7F]) == 0xED47_7CDF
  {
    hide XorBits, Xor, Register, Shifts, Pow2;
    Powers();
    RegisterOfByte(0x7F);
    ShiftOut(0x1FF_FFFF, 7, 1);
    LastShift();
    GeneratorFlipped();
  }

  lemma RegisterOfNothing()
    ensures Register([]) == 0xFFFF_FFFF
  {
  }

  lemma LastShift()
    ensures Shifts(0xFF_FFFF, 0) == 0xFF_FFFF
    ensures Shifts(0x1FF_FFFF, 1) == Xor(0xFF_FFFF, 0xEDB8_8320)
  {
    hide XorBits, Xor;
  }

  /** `native_crc` */
  method NativeCrc(data: seq<Byte>) returns (result: Word)
    ensures result == Checksum(data)
  {
    var crc: Word := 0xFFFF_FFFF;
    var i := 0;
    while i < |data|
      invariant 0 <= i <= |data| && crc == Register(data[..i])
    {
      assert data[..i + 1][..i] == data[..i];
      crc := Xor(crc, data[i]);
      ghost var start := crc;
      var bit := 0;
      while bit < 8
        invariant 0 <= bit <= 8 && Shifts(crc, 8 - bit) == Shifts(start, 8)
      {
        crc := Xor(crc / 2, if crc % 2 == 1 then 0xedb88320 else 0);
        bit := bit + 1;
      }
      i := i + 1;
    }
    assert data[..i] == data;
    result := 0xFFFF_FFFF - crc;
  }
}
