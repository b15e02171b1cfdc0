/**
 CRC-16/CCITT-FALSE as `calculateCRC` computes it: register preset to FFFF,
 generator polynomial 1021, bytes taken most significant bit first, no
 reflection and no final XOR: the checksum the EMV QR Code Specification
 for Payment Systems prescribes for the data object with tag 63.
 */
module Crc {
  import opened SwiftRuntime

  const Preset: bv16 := 0xFFFF

  /** One shift of the register: when the bit shifted out is set, the
      generator polynomial 0x1021 is XORed in; `<<` on a `UInt16` drops the bit. */
  function Shift(crc: bv16): bv16 {
    if crc & 0x8000 != 0 then (crc << 1) ^ 0x1021 else crc << 1
  }

  /** `k` shifts in a row. */
  function Shifts(crc: bv16, k: nat): bv16 {
    if k == 0 then crc else Shift(Shifts(crc, k - 1))
  }

  /** `UInt16(byte)`: a byte widened to the register's width. */
  function Wide(b: byte): (x: bv16)
    ensures x & 0xFF00 == 0
  {
    b as int as bv16
  }

  /** One byte: XOR it into the high half of the register, then shift eight times. */
  function Absorb(crc: bv16, b: byte): bv16 {
    Shifts(crc ^ (Wide(b) << 8), 8)
  }

  /** The register after the bytes have been absorbed in order, from the preset. */
  function Crc16(bytes: seq<byte>): (r: bv16)
    ensures |bytes| == 0 ==> r == 0xFFFF
  {
    if |bytes| == 0 then Preset else Absorb(Crc16(bytes[..|bytes| - 1]), bytes[|bytes| - 1])
  }

  /** The register read as a number. */
  function Value(x: bv16): (n: nat)
    ensures n < 0x1_0000
  {
    x as int
  }

  /** `calculateCRC`: the checksum of the UTF-8 bytes of `data`, written
      with `%04X` as four upper-case hex digits that read back as the
      register's value. */
  method CalculateCRC(data: string) returns (r: string)
    ensures r == Hex4(Value(Crc16(Utf8(data))))
    ensures |r| == 4 && forall i :: 0 <= i < 4 ==> IsUpperHex(r[i])
    ensures HexValue(r) == Value(Crc16(Utf8(data)))
  {
    var crc := Checksum(Utf8(data));
    r := Hex4(Value(crc & 0xFFFF));
    HexRoundTrip(Value(crc));
  }

  /** The loops of `calculateCRC`: each byte is XORed into the high half of
      the register, then the register is shifted eight times. */
  method Checksum(bytes: seq<byte>) returns (crc: bv16)
    ensures crc == Crc16(bytes)
  {
    crc := 0xFFFF;
    for i := 0 to |bytes|
      invariant crc == Crc16(bytes[..i])
    {
      assert bytes[..i + 1][..i] == bytes[..i];
      crc := crc ^ (Wide(bytes[i]) << 8);
      ghost var start := crc;
      for k := 0 to 8
        invariant crc == Shifts(start, k)
      {
        ghost var before := crc;
        if crc & 0x8000 != 0 {
          crc := (crc << 1) ^ 0x1021;
        } else {
          crc := crc << 1;
        }
        ShiftOnly(before, crc);
        ShiftsStep(start, k, before, crc);
      }
    }
    assert bytes[..|bytes|] == bytes;
  }

  lemma ShiftsStep(start: bv16, k: nat, before: bv16, after: bv16)
    requires before == Shifts(start, k)
    requires after == Shift(before)
    ensures after == Shifts(start, k + 1)
  {
  }

  lemma ShiftOnly(before: bv16, after: bv16)
    requires after == if before & 0x8000 != 0 then (before << 1) ^ 0x1021 else before << 1
    ensures after == Shift(before)
  {
  }

  /** Appending a byte absorbs it into the checksum of what came before. */
  lemma Crc16Snoc(bytes: seq<byte>, b: byte)
    ensures Crc16(bytes + [b]) == Absorb(Crc16(bytes), b)
  {
    assert (bytes + [b])[..|bytes|] == bytes;
  }

  // ---------------------------------------------------------------------
  // Check values of CRC-16/CCITT-FALSE
  // ---------------------------------------------------------------------

  /** The checksum of no bytes is the preset, written "FFFF". */
  lemma EmptyCheckValue()
    ensures Crc16(Utf8("")) == 0xFFFF
    ensures Hex4(Value(Crc16(Utf8("")))) == "FFFF"
  {
  }

  /** One byte worked through its eight shifts. */
  lemma AbsorbByShifts(prev: bv16, b: byte, x: bv16, t1: bv16, t2: bv16, t3: bv16, t4: bv16, t5: bv16, t6: bv16, t7: bv16, t8: bv16)
    requires x == prev ^ (Wide(b) << 8)
    requires Shift(x) == t1 && Shift(t1) == t2 && Shift(t2) == t3 && Shift(t3) == t4
    requires Shift(t4) == t5 && Shift(t5) == t6 && Shift(t6) == t7 && Shift(t7) == t8
    ensures Absorb(prev, b) == t8
  {
    assert Shifts(x, 1) == t1;
    assert Shifts(x, 2) == t2;
    assert Shifts(x, 3) == t3;
    assert Shifts(x, 4) == t4;
    assert Shifts(x, 5) == t5;
    assert Shifts(x, 6) == t6;
    assert Shifts(x, 7) == t7;
    assert Shifts(x, 8) == t8;
  }

  /** The register after each byte of "123456789". */
  lemma CheckByte1()
    ensures Absorb(0xFFFF, 0x31) == 0xC782
  {
    AbsorbByShifts(0xFFFF, 0x31, 0xCEFF, 0x8DDF, 0x0B9F, 0x173E, 0x2E7C, 0x5CF8, 0xB9F0, 0x63C1, 0xC782);
  }

  lemma CheckByte2()
    ensures Absorb(0xC782, 0x32) == 0x3DBA
  {
    AbsorbByShifts(0xC782, 0x32, 0xF582, 0xFB25, 0xE66B, 0xDCF7, 0xA9CF, 0x43BF, 0x877E, 0x1EDD, 0x3DBA);
  }

  lemma CheckByte3()
    ensures Absorb(0x3DBA, 0x33) == 0x5BCE
  {
    AbsorbByShifts(0x3DBA, 0x33, 0x0EBA, 0x1D74, 0x3AE8, 0x75D0, 0xEBA0, 0xC761, 0x9EE3, 0x2DE7, 0x5BCE);
  }

  lemma CheckByte4()
    ensures Absorb(0x5BCE, 0x34) == 0x5349
  {
    AbsorbByShifts(0x5BCE, 0x34, 0x6FCE, 0xDF9C, 0xAF19, 0x4E13, 0x9C26, 0x286D, 0x50DA, 0xA1B4, 0x5349);
  }

  lemma CheckByte5()
    ensures Absorb(0x5349, 0x35) == 0x4560
  {
    AbsorbByShifts(0x5349, 0x35, 0x6649, 0xCC92, 0x8905, 0x022B, 0x0456, 0x08AC, 0x1158, 0x22B0, 0x4560);
  }

  lemma CheckByte6()
    ensures Absorb(0x4560, 0x36) == 0x2EF4
  {
    AbsorbByShifts(0x4560, 0x36, 0x7360, 0xE6C0, 0xDDA1, 0xAB63, 0x46E7, 0x8DCE, 0x0BBD, 0x177A, 0x2EF4);
  }

  lemma CheckByte7()
    ensures Absorb(0x2EF4, 0x37) == 0x7718
  {
    AbsorbByShifts(0x2EF4, 0x37, 0x19F4, 0x33E8, 0x67D0, 0xCFA0, 0x8F61, 0x0EE3, 0x1DC6, 0x3B8C, 0x7718);
  }

  lemma CheckByte8()
    ensures Absorb(0x7718, 0x38) == 0xA12B
  {
    AbsorbByShifts(0x7718, 0x38, 0x4F18, 0x9E30, 0x2C41, 0x5882, 0xB104, 0x7229, 0xE452, 0xD885, 0xA12B);
  }

  lemma CheckByte9()
    ensures Absorb(0xA12B, 0x39) == 0x29B1
  {
    AbsorbByShifts(0xA12B, 0x39, 0x982B, 0x2077, 0x40EE, 0x81DC, 0x1399, 0x2732, 0x4E64, 0x9CC8, 0x29B1);
  }

  lemma AsciiCheckString()
    ensures Utf8("123456789") == [0x31, 0x32, 0x33, 0x34, 0x35, 0x36, 0x37, 0x38, 0x39]
  {
    Utf8Ascii("123456789");
  }

  /** The catalogued check value of CRC-16/CCITT-FALSE: the nine ASCII
      digits "123456789" give 29B1, one intermediate register per byte. */
  lemma CheckValue()
    ensures Crc16(Utf8("123456789")) == 0x29B1
  {
    AsciiCheckString();
    var s0: seq<byte> := [];
    var s1 := s0 + [0x31]; Crc16Snoc(s0, 0x31); CheckByte1();
    var s2 := s1 + [0x32]; Crc16Snoc(s1, 0x32); CheckByte2();
    var s3 := s2 + [0x33]; Crc16Snoc(s2, 0x33); CheckByte3();
    var s4 := s3 + [0x34]; Crc16Snoc(s3, 0x34); CheckByte4();
    var s5 := s4 + [0x35]; Crc16Snoc(s4, 0x35); CheckByte5();
    var s6 := s5 + [0x36]; Crc16Snoc(s5, 0x36); CheckByte6();
    var s7 := s6 + [0x37]; Crc16Snoc(s6, 0x37); CheckByte7();
    var s8 := s7 + [0x38]; Crc16Snoc(s7, 0x38); CheckByte8();
    var s9 := s8 + [0x39]; Crc16Snoc(s8, 0x39); CheckByte9();
    assert s9 == [0x31, 0x32, 0x33, 0x34, 0x35, 0x36, 0x37, 0x38, 0x39];
  }

  /** `calculateCRC("123456789")` is "29B1". */
  lemma CheckString()
    ensures Hex4(Value(Crc16(Utf8("123456789")))) == "29B1"
  {
    CheckValue();
    HexOfCheckValue();
  }

  lemma HexOfCheckValue()
    ensures Hex4(Value(0x29B1)) == "29B1"
  {
    var n := Value(0x29B1);
    assert n == 0x29B1;
    assert n / 4096 == 2 && n / 256 % 16 == 9 && n / 16 % 16 == 11 && n % 16 == 1;
  }
}
