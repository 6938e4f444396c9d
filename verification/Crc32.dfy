/** The checksum of file transfers: the reflected CRC-32 of section 8 of RFC 1952, kept as a
    running register over the chunks of a file. */
module Crc32 {

  const POLYNOMIAL: bv32 := 0xEDB8_8320
  const START: bv32 := 0xFFFF_FFFF

  /** Exclusive or, the lowest bit and the shift by one. They have names so that proofs can work
      with their algebra and leave their bits alone. */
  function Xor(a: bv32, b: bv32): bv32 {
    a ^ b
  }

  predicate Odd(r: bv32) {
    r & 1 == 1
  }

  function Half(r: bv32): bv32 {
    r >> 1
  }

  function BitStep(r: bv32): bv32 {
    if Odd(r) then Xor(Half(r), POLYNOMIAL) else Half(r)
  }

  function BitSteps(r: bv32, n: nat): bv32
    decreases n
  {
    if n == 0 then r else BitSteps(BitStep(r), n - 1)
  }

  function ByteStep(r: bv32, b: bv8): bv32 {
    BitSteps(Xor(r, b as bv32), 8)
  }

  /** The register after all bytes of data. */
  function Process(r: bv32, data: seq<bv8>): bv32 {
    if data == [] then r else ByteStep(Process(r, data[..|data| - 1]), data[|data| - 1])
  }

  function Checksum(data: seq<bv8>): bv32 {
    Xor(Process(START, data), 0xFFFF_FFFF)
  }

  /** boost::crc_32_type: a register that process_bytes moves on, bit by bit. */
  class Crc {
    var register: bv32

    constructor ()
      ensures register == START
    {
      register := START;
    }

    /** Takes in the first n bytes of the buffer. */
    method ProcessBytes(buffer: array<bv8>, n: nat)
      requires n <= buffer.Length
      modifies this
      ensures register == Process(old(register), buffer[..n])
    {
      hide BitStep, BitSteps, Xor;
      for i := 0 to n
        invariant register == Process(old(register), buffer[..i])
      {
        assert buffer[..i + 1][..i] == buffer[..i];
        ProcessByte(buffer[i]);
      }
    }

    method ProcessByte(b: bv8)
      modifies this
      ensures register == ByteStep(old(register), b)
    {
      hide BitStep, Xor;
      register := Xor(register, b as bv32);
      for k := 0 to 8
        invariant BitSteps(register, 8 - k) == ByteStep(old(register), b)
      {
        register := BitStep(register);
      }
    }

    method Value() returns (v: bv32)
      ensures v == Xor(register, 0xFFFF_FFFF)
    {
      v := register ^ 0xFFFF_FFFF;
    }
  }

  // ---------- chunks ----------

  /** Checksumming chunk by chunk is checksumming the whole, wherever the chunks are cut. */
  lemma {:induction false} ProcessConcat(r: bv32, a: seq<bv8>, b: seq<bv8>)
    ensures Process(r, a + b) == Process(Process(r, a), b)
  {
    if b == [] {
      assert a + b == a;
    } else {
      ProcessConcat(r, a, b[..|b| - 1]);
      assert (a + b)[..|a + b| - 1] == a + b[..|b| - 1];
    }
  }

  function Concat(chunks: seq<seq<bv8>>): seq<bv8> {
    if chunks == [] then [] else Concat(chunks[..|chunks| - 1]) + chunks[|chunks| - 1]
  }

  function ProcessChunks(r: bv32, chunks: seq<seq<bv8>>): bv32 {
    if chunks == [] then r else Process(ProcessChunks(r, chunks[..|chunks| - 1]), chunks[|chunks| - 1])
  }

  lemma {:induction false} AnyChunking(r: bv32, chunks: seq<seq<bv8>>)
    ensures ProcessChunks(r, chunks) == Process(r, Concat(chunks))
  {
    if chunks != [] {
      AnyChunking(r, chunks[..|chunks| - 1]);
      ProcessConcat(r, Concat(chunks[..|chunks| - 1]), chunks[|chunks| - 1]);
    }
  }

  // ---------- the register step is a linear bijection ----------

  lemma XorAssociative(a: bv32, b: bv32, c: bv32)
    ensures Xor(Xor(a, b), c) == Xor(a, Xor(b, c))
  {
  }

  lemma XorCommutative(a: bv32, b: bv32)
    ensures Xor(a, b) == Xor(b, a)
  {
  }

  lemma XorTwice(a: bv32, b: bv32)
    ensures Xor(Xor(a, b), b) == a
  {
  }

  /** Rearrangements of two sums that share a summand. */
  lemma XorShared(a: bv32, b: bv32, c: bv32)
    ensures Xor(Xor(a, c), Xor(b, c)) == Xor(a, b)
    ensures Xor(Xor(a, c), b) == Xor(Xor(a, b), c)
    ensures Xor(a, Xor(b, c)) == Xor(Xor(a, b), c)
  {
    hide Xor;
    XorAssociative(a, c, b);
    XorCommutative(c, b);
    XorAssociative(a, b, c);
    XorAssociative(Xor(a, c), b, c);
    XorAssociative(Xor(a, b), c, c);
    XorTwice(Xor(a, b), c);
  }

  lemma XorCancels(a: bv32, b: bv32, c: bv32)
    requires Xor(a, c) == Xor(b, c) || Xor(c, a) == Xor(c, b)
    ensures a == b
  {
  }

  lemma XorParts(x: bv32, y: bv32)
    ensures Half(Xor(x, y)) == Xor(Half(x), Half(y))
    ensures Odd(Xor(x, y)) <==> Odd(x) != Odd(y)
  {
  }

  lemma BitStepLinear(x: bv32, y: bv32)
    ensures BitStep(Xor(x, y)) == Xor(BitStep(x), BitStep(y))
  {
    hide Xor, Odd, Half;
    XorParts(x, y);
    XorShared(Half(x), Half(y), POLYNOMIAL);
  }

  /** No two registers step to the same one: the polynomial's top bit tells the cases apart. */
  lemma BitStepInjective(x: bv32, y: bv32)
    requires BitStep(x) == BitStep(y)
    ensures x == y
  {
  }

  lemma {:induction false} BitStepsLinear(x: bv32, y: bv32, n: nat)
    ensures BitSteps(Xor(x, y), n) == Xor(BitSteps(x, n), BitSteps(y, n))
    decreases n
  {
    hide Xor, BitStep;
    if n > 0 {
      BitStepLinear(x, y);
      BitStepsLinear(BitStep(x), BitStep(y), n - 1);
    }
  }

  lemma {:induction false} BitStepsInjective(x: bv32, y: bv32, n: nat)
    requires BitSteps(x, n) == BitSteps(y, n)
    ensures x == y
    decreases n
  {
    hide BitStep;
    if n > 0 {
      BitStepsInjective(BitStep(x), BitStep(y), n - 1);
      BitStepInjective(x, y);
    }
  }

  lemma {:induction false} BitStepsAdd(x: bv32, m: nat, n: nat)
    ensures BitSteps(x, m + n) == BitSteps(BitSteps(x, m), n)
    decreases m
  {
    hide BitStep;
    if m > 0 {
      BitStepsAdd(BitStep(x), m - 1, n);
    }
  }

  /** Steps over zero bits only shift them out. */
  lemma ShiftOut(w: bv32)
    requires w < 0x100_0000
    ensures BitSteps(w << 8, 8) == w
  {
  }

  lemma ByteStepInjective(x: bv32, y: bv32, b: bv8)
    requires ByteStep(x, b) == ByteStep(y, b)
    ensures x == y
  {
    hide Xor, BitStep, BitSteps;
    BitStepsInjective(Xor(x, b as bv32), Xor(y, b as bv32), 8);
    XorCancels(x, y, b as bv32);
  }

  lemma {:induction false} ProcessInjective(x: bv32, y: bv32, data: seq<bv8>)
    requires Process(x, data) == Process(y, data)
    ensures x == y
    decreases |data|
  {
    hide ByteStep;
    if data != [] {
      var front, b := data[..|data| - 1], data[|data| - 1];
      ByteStepInjective(Process(x, front), Process(y, front), b);
      ProcessInjective(x, y, front);
    }
  }

  // ---------- the parameters ----------

  lemma ProcessOneMore(data: seq<bv8>, i: nat)
    requires i < |data|
    ensures Process(START, data[..i + 1]) == ByteStep(Process(START, data[..i]), data[i])
    ensures Process(START, data[..0]) == START
  {
    hide ByteStep;
    assert data[..i + 1][..i] == data[..i];
  }

  /** The register over the digits 1 to 9. */
  lemma CheckSteps()
    ensures ByteStep(0xFFFF_FFFF, 0x31) == 0x7C23_1048
    ensures ByteStep(0x7C23_1048, 0x32) == 0xB0AC_BB32
    ensures ByteStep(0xB0AC_BB32, 0x33) == 0x77B7_9C2D
    ensures ByteStep(0x77B7_9C2D, 0x34) == 0x641C_1F5C
    ensures ByteStep(0x641C_1F5C, 0x35) == 0x340A_C5E3
    ensures ByteStep(0x340A_C5E3, 0x36) == 0xF68D_2C9E
    ensures ByteStep(0xF68D_2C9E, 0x37) == 0xAFFC_9660
    ensures ByteStep(0xAFFC_9660, 0x38) == 0x651F_2550
    ensures ByteStep(0x651F_2550, 0x39) == 0x340B_C6D9
  {
  }

  /** The value by which CRC-32 implementations are told apart, the checksum of the digits 1 to 9:
      start, polynomial, bit order and final inversion are those of boost::crc_32_type. */
  lemma CheckValue()
    ensures Checksum([0x31, 0x32, 0x33, 0x34, 0x35, 0x36, 0x37, 0x38, 0x39]) == 0xCBF4_3926
  {
    hide Process, ByteStep;
    var digits: seq<bv8> := [0x31, 0x32, 0x33, 0x34, 0x35, 0x36, 0x37, 0x38, 0x39];
    var registers: seq<bv32> := [START, 0x7C23_1048, 0xB0AC_BB32, 0x77B7_9C2D, 0x641C_1F5C,
                                 0x340A_C5E3, 0xF68D_2C9E, 0xAFFC_9660, 0x651F_2550, 0x340B_C6D9];
    CheckSteps();
    ProcessOneMore(digits, 0);
    for i := 0 to 9
      invariant Process(START, digits[..i]) == registers[i]
    {
      ProcessOneMore(digits, i);
    }
    assert digits[..9] == digits;
  }
}
