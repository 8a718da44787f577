/** The CRC-32 of the RA state container, and why it notices a changed byte. */
module Crc32 {

  type u32 = n: int | 0 <= n < 0x1_0000_0000

  /** One turn of the inner bit loop: shift right, fold in the polynomial when a one falls out. */
  function BitStep(crc: bv32): bv32 {
    (crc >> 1) ^ (if crc & 1 == 1 then 0xedb88320 else 0)
  }

  function BitSteps(crc: bv32, count: nat): bv32
    decreases count
  {
    if count == 0 then crc else BitSteps(BitStep(crc), count - 1)
  }

  function ByteStep(crc: bv32, byte: bv8): bv32 {
    BitSteps(crc ^ (byte as bv32), 8)
  }

  /** The register after a message, from any starting value. */
  function Register(crc: bv32, data: seq<bv8>): bv32
    decreases data
  {
    if data == [] then crc else Register(ByteStep(crc, data[0]), data[1..])
  }

  function OctetOf(value: bv32, shift: bv6): bv8
    requires shift <= 24
  {
    ((value >> shift) & 0xff) as bv8
  }

  /** The unsigned number held by a 32-bit register. */
  function NumberOf(value: bv32): u32 {
    var b0, b1 := OctetOf(value, 0) as int, OctetOf(value, 8) as int;
    var b2, b3 := OctetOf(value, 16) as int, OctetOf(value, 24) as int;
    b0 + 0x100 * b1 + 0x1_0000 * b2 + 0x100_0000 * b3
  }

  /** The complement the loop ends with, as a number. */
  function Finish(crc: bv32): u32 {
    NumberOf(!crc)
  }

  function Checksum(data: seq<bv8>): u32 {
    Finish(Register(0xffff_ffff, data))
  }

  /** The body of the outer loop: eight turns of the inner one. */
  method AbsorbByte(before: bv32, byte: bv8) returns (crc: bv32)
    ensures crc == ByteStep(before, byte)
  {
    crc := before ^ (byte as bv32);
    for bit := 0 to 8
      invariant ByteStep(before, byte) == BitSteps(crc, 8 - bit)
    {
      crc := BitStep(crc);
    }
  }

  method ComputeCrc32(data: seq<bv8>) returns (checksum: u32)
    ensures checksum == Checksum(data)
  {
    hide Finish, NumberOf, ByteStep;
    var crc: bv32 := 0xffff_ffff;
    for index := 0 to |data|
      invariant Register(0xffff_ffff, data) == Register(crc, data[index..])
    {
      assert data[index..][1..] == data[index + 1..];
      crc := AbsorbByte(crc, data[index]);
    }
    checksum := Finish(crc);
  }

  // ---- injectivity, one layer at a time ----

  lemma BitStepInjective(a: bv32, b: bv32)
    requires BitStep(a) == BitStep(b)
    ensures a == b
  {
  }

  lemma {:induction false} BitStepsInjective(a: bv32, b: bv32, count: nat)
    requires BitSteps(a, count) == BitSteps(b, count)
    ensures a == b
    decreases count
  {
    if count > 0 {
      BitStepsInjective(BitStep(a), BitStep(b), count - 1);
      BitStepInjective(a, b);
    }
  }

  lemma XorCancels(a: bv32, b: bv32, x: bv8, y: bv8)
    requires a ^ (x as bv32) == b ^ (y as bv32)
    ensures x == y ==> a == b
    ensures a == b ==> x == y
  {
  }

  /** For a fixed byte the step permutes the registers; for a fixed register it separates the bytes. */
  lemma ByteStepInjective(a: bv32, b: bv32, x: bv8, y: bv8)
    requires ByteStep(a, x) == ByteStep(b, y)
    ensures x == y ==> a == b
    ensures a == b ==> x == y
  {
    BitStepsInjective(a ^ (x as bv32), b ^ (y as bv32), 8);
    XorCancels(a, b, x, y);
  }

  lemma {:induction false} RegisterInjective(a: bv32, b: bv32, data: seq<bv8>)
    requires Register(a, data) == Register(b, data)
    ensures a == b
    decreases data
  {
    if data != [] {
      RegisterInjective(ByteStep(a, data[0]), ByteStep(b, data[0]), data[1..]);
      ByteStepInjective(a, b, data[0], data[0]);
    }
  }

  ghost predicate DifferOnlyAt(a: seq<bv8>, b: seq<bv8>, index: nat) {
    && |a| == |b| && index < |a| && a[index] != b[index]
    && forall k :: 0 <= k < |a| && k != index ==> a[k] == b[k]
  }

  lemma {:induction false} RegisterSeparates(crc: bv32, a: seq<bv8>, b: seq<bv8>, index: nat)
    requires DifferOnlyAt(a, b, index)
    ensures Register(crc, a) != Register(crc, b)
    decreases index
  {
    if index == 0 {
      assert a[1..] == b[1..];
      if Register(crc, a) == Register(crc, b) {
        RegisterInjective(ByteStep(crc, a[0]), ByteStep(crc, b[0]), a[1..]);
        ByteStepInjective(crc, crc, a[0], b[0]);
      }
    } else {
      assert DifferOnlyAt(a[1..], b[1..], index - 1);
      RegisterSeparates(ByteStep(crc, a[0]), a[1..], b[1..], index - 1);
    }
  }

  lemma OctetsDetermine(a: bv32, b: bv32)
    requires OctetOf(a, 0) == OctetOf(b, 0) && OctetOf(a, 8) == OctetOf(b, 8)
    requires OctetOf(a, 16) == OctetOf(b, 16) && OctetOf(a, 24) == OctetOf(b, 24)
    ensures a == b
  {
  }

  lemma OctetNumberInjective(a: bv8, b: bv8)
    requires a as int == b as int
    ensures a == b
  {
  }

  lemma LowDigitDetermines(a: int, p: int, b: int, q: int)
    requires 0 <= a < 0x100 && 0 <= b < 0x100 && a + 0x100 * p == b + 0x100 * q
    ensures a == b && p == q
  {
  }

  lemma DigitsDetermine(a0: int, a1: int, a2: int, a3: int, b0: int, b1: int, b2: int, b3: int)
    requires 0 <= a0 < 0x100 && 0 <= a1 < 0x100 && 0 <= a2 < 0x100 && 0 <= a3 < 0x100
    requires 0 <= b0 < 0x100 && 0 <= b1 < 0x100 && 0 <= b2 < 0x100 && 0 <= b3 < 0x100
    requires a0 + 0x100 * a1 + 0x1_0000 * a2 + 0x100_0000 * a3
          == b0 + 0x100 * b1 + 0x1_0000 * b2 + 0x100_0000 * b3
    ensures a0 == b0 && a1 == b1 && a2 == b2 && a3 == b3
  {
    LowDigitDetermines(a0, a1 + 0x100 * a2 + 0x1_0000 * a3, b0, b1 + 0x100 * b2 + 0x1_0000 * b3);
    LowDigitDetermines(a1, a2 + 0x100 * a3, b1, b2 + 0x100 * b3);
    LowDigitDetermines(a2, a3, b2, b3);
  }

  lemma NumberOfInjective(a: bv32, b: bv32)
    requires NumberOf(a) == NumberOf(b)
    ensures a == b
  {
    DigitsDetermine(OctetOf(a, 0) as int, OctetOf(a, 8) as int, OctetOf(a, 16) as int, OctetOf(a, 24) as int,
                    OctetOf(b, 0) as int, OctetOf(b, 8) as int, OctetOf(b, 16) as int, OctetOf(b, 24) as int);
    OctetNumberInjective(OctetOf(a, 0), OctetOf(b, 0));
    OctetNumberInjective(OctetOf(a, 8), OctetOf(b, 8));
    OctetNumberInjective(OctetOf(a, 16), OctetOf(b, 16));
    OctetNumberInjective(OctetOf(a, 24), OctetOf(b, 24));
    OctetsDetermine(a, b);
  }

  lemma ComplementInjective(a: bv32, b: bv32)
    requires !a == !b
    ensures a == b
  {
  }

  lemma FinalNumbersDiffer(a: bv32, b: bv32)
    requires a != b
    ensures Finish(a) != Finish(b)
  {
    hide NumberOf;
    if Finish(a) == Finish(b) {
      NumberOfInjective(!a, !b);
      ComplementInjective(a, b);
    }
  }

  /** Messages of any length: changing exactly one byte changes the checksum. */
  lemma ChecksumDetectsOneByte(a: seq<bv8>, b: seq<bv8>, index: nat)
    requires DifferOnlyAt(a, b, index)
    ensures Checksum(a) != Checksum(b)
  {
    hide NumberOf, Finish, Register, ByteStep, BitSteps, BitStep, OctetOf;
    RegisterSeparates(0xffff_ffff, a, b, index);
    FinalNumbersDiffer(Register(0xffff_ffff, a), Register(0xffff_ffff, b));
  }

  // ---- which CRC it is ----

  /** The nine digits whose checksum identifies a CRC. */
  const DIGITS: seq<bv8> := [0x31, 0x32, 0x33, 0x34, 0x35, 0x36, 0x37, 0x38, 0x39]

  lemma FirstDigits()
    ensures ByteStep(0xffff_ffff, 0x31) == 0x7c23_1048 && ByteStep(0x7c23_1048, 0x32) == 0xb0ac_bb32
    ensures ByteStep(0xb0ac_bb32, 0x33) == 0x77b7_9c2d
  {
  }

  lemma MiddleDigits()
    ensures ByteStep(0x77b7_9c2d, 0x34) == 0x641c_1f5c && ByteStep(0x641c_1f5c, 0x35) == 0x340a_c5e3
    ensures ByteStep(0x340a_c5e3, 0x36) == 0xf68d_2c9e
  {
  }

  lemma LastDigits()
    ensures ByteStep(0xf68d_2c9e, 0x37) == 0xaffc_9660 && ByteStep(0xaffc_9660, 0x38) == 0x651f_2550
    ensures ByteStep(0x651f_2550, 0x39) == 0x340b_c6d9
  {
  }

  lemma AbsorbThree(crc: bv32, data: seq<bv8>)
    requires |data| >= 3
    ensures Register(crc, data) == Register(ByteStep(ByteStep(ByteStep(crc, data[0]), data[1]), data[2]), data[3..])
  {
    hide ByteStep;
    var one := ByteStep(crc, data[0]);
    var two := ByteStep(one, data[1]);
    assert data[1..][0] == data[1] && data[1..][1..] == data[2..];
    assert data[2..][0] == data[2] && data[2..][1..] == data[3..];
    assert Register(one, data[1..]) == Register(two, data[2..]);
  }

  lemma DigitsRegister()
    ensures Register(0xffff_ffff, DIGITS) == 0x340b_c6d9
  {
    hide ByteStep, Register;
    FirstDigits();
    MiddleDigits();
    LastDigits();
    AbsorbThree(0xffff_ffff, DIGITS);
    AbsorbThree(0x77b7_9c2d, DIGITS[3..]);
    assert DIGITS[3..][3..] == DIGITS[6..];
    AbsorbThree(0xf68d_2c9e, DIGITS[6..]);
    assert DIGITS[6..][3..] == [];
    NothingLeft(0x340b_c6d9);
  }

  lemma NothingLeft(crc: bv32)
    ensures Register(crc, []) == crc
  {
  }

  lemma CheckOctets()
    ensures OctetOf(0xcbf4_3926, 0) == 0x26 && OctetOf(0xcbf4_3926, 8) == 0x39
    ensures OctetOf(0xcbf4_3926, 16) == 0xf4 && OctetOf(0xcbf4_3926, 24) == 0xcb
  {
  }

  lemma OctetNumbers()
    ensures 0x26 as bv8 as int == 0x26 && 0x39 as bv8 as int == 0x39
    ensures 0xf4 as bv8 as int == 0xf4 && 0xcb as bv8 as int == 0xcb
  {
  }

  /** It is the CRC-32 of ISO 3309: the check value of the digits 1 to 9 is CBF43926. */
  lemma CheckValue()
    ensures Checksum(DIGITS) == 0xcbf4_3926
  {
    hide Register, OctetOf;
    DigitsRegister();
    CheckComplement();
    CheckOctets();
    OctetNumbers();
    assert NumberOf(0xcbf4_3926) == 0x26 + 0x100 * 0x39 + 0x1_0000 * 0xf4 + 0x100_0000 * 0xcb;
  }

  lemma CheckComplement()
    ensures !(0x340b_c6d9 as bv32) == 0xcbf4_3926
  {
  }
}
