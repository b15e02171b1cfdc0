/**
 An independent reference for the checksum: the textbook bit-serial
 linear-feedback shift register, which feeds one message bit per step and
 XORs the generator in when the bit leaving the register differs from the
 message bit. `calculateCRC` instead XORs a whole byte into the high half
 and shifts eight times; the lemmas below prove the two agree on every input.
 */
module CrcReference {
  import opened SwiftRuntime
  import opened Crc

  /** The byte's bits not yet fed after `k` steps, moved up to the top of
      the low half: its bit 7 is the next message bit. */
  function Drain(p: bv16, k: nat): bv16 {
    if k == 0 then p else (Drain(p, k - 1) << 1) & 0xFF
  }

  /** One message bit (bit 7 of `pending`) through the register. */
  function BitStep(crc: bv16, pending: bv16): bv16 {
    if (crc & 0x8000 != 0) != (pending & 0x80 != 0) then (crc << 1) ^ 0x1021 else crc << 1
  }

  /** The first `k` bits of the byte `p`, most significant first. */
  function BitSteps(crc: bv16, p: bv16, k: nat): bv16 {
    if k == 0 then crc else BitStep(BitSteps(crc, p, k - 1), Drain(p, k - 1))
  }

  /** The bit-serial register run over a whole message from the preset. */
  function BitSerialCrc(bytes: seq<byte>): bv16 {
    if |bytes| == 0 then Preset else BitSteps(BitSerialCrc(bytes[..|bytes| - 1]), Wide(bytes[|bytes| - 1]), 8)
  }

  /** The byte-at-a-time register: the bit-serial state with the pending
      bits XORed into its high half. */
  function Load(s: bv16, q: bv16): bv16 {
    s ^ (q << 8)
  }

  lemma TopBit(s: bv16, q: bv16, x: bv16)
    requires q & 0xFF00 == 0 && x == s ^ (q << 8)
    ensures (x & 0x8000 != 0) == ((s & 0x8000 != 0) != (q & 0x80 != 0))
  {
  }

  lemma ShiftedLoad(s: bv16, q: bv16, x: bv16, q1: bv16)
    requires q & 0xFF00 == 0 && x == s ^ (q << 8) && q1 == (q << 1) & 0xFF
    ensures x << 1 == (s << 1) ^ (q1 << 8)
  {
  }

  lemma XorSwap(a: bv16, b: bv16, c: bv16)
    ensures (a ^ b) ^ c == (a ^ c) ^ b
  {
  }

  lemma Combine(x: bv16, s: bv16, q1: bv16, q: bv16)
    requires x << 1 == (s << 1) ^ (q1 << 8)
    requires (x & 0x8000 != 0) == ((s & 0x8000 != 0) != (q & 0x80 != 0))
    ensures Shift(x) == Load(BitStep(s, q), q1)
  {
    if x & 0x8000 != 0 {
      XorSwap(s << 1, q1 << 8, 0x1021);
    }
  }

  /** One shift of the byte-at-a-time register is one bit-serial step. */
  lemma ShiftIsBitStep(s: bv16, q: bv16, q1: bv16)
    requires q & 0xFF00 == 0 && q1 == (q << 1) & 0xFF
    ensures Shift(Load(s, q)) == Load(BitStep(s, q), q1)
  {
    var x := Load(s, q);
    TopBit(s, q, x);
    ShiftedLoad(s, q, x, q1);
    Combine(x, s, q1, q);
  }

  lemma {:induction false} DrainLow(p: bv16, k: nat)
    requires p & 0xFF00 == 0
    ensures Drain(p, k) & 0xFF00 == 0
  {
    if k > 0 {
      DrainLow(p, k - 1);
    }
  }

  lemma AbsorbOne(crc: bv16, p: bv16, j: nat)
    requires p & 0xFF00 == 0
    requires Shifts(Load(crc, p), j) == Load(BitSteps(crc, p, j), Drain(p, j))
    ensures Shifts(Load(crc, p), j + 1) == Load(BitSteps(crc, p, j + 1), Drain(p, j + 1))
  {
    DrainLow(p, j);
    ShiftIsBitStep(BitSteps(crc, p, j), Drain(p, j), Drain(p, j + 1));
  }

  /** After `k` shifts the byte-at-a-time register is the bit-serial
      register after `k` bits, with the remaining bits still loaded. */
  lemma {:induction false} AbsorbStep(crc: bv16, p: bv16, k: nat)
    requires p & 0xFF00 == 0
    ensures Shifts(Load(crc, p), k) == Load(BitSteps(crc, p, k), Drain(p, k))
  {
    if k > 0 {
      var j := k - 1;
      AbsorbStep(crc, p, j);
      AbsorbOne(crc, p, j);
      assert j + 1 == k;
    }
  }

  /** After eight steps no bit of the byte is left. */
  lemma DrainEight(p: bv16)
    requires p & 0xFF00 == 0
    ensures Drain(p, 8) == 0
  {
    var p1 := (p << 1) & 0xFF;
    var p2 := (p1 << 1) & 0xFF;
    var p3 := (p2 << 1) & 0xFF;
    var p4 := (p3 << 1) & 0xFF;
    var p5 := (p4 << 1) & 0xFF;
    var p6 := (p5 << 1) & 0xFF;
    var p7 := (p6 << 1) & 0xFF;
    assert Drain(p, 1) == p1;
    assert Drain(p, 2) == p2;
    assert Drain(p, 3) == p3;
    assert Drain(p, 4) == p4;
    assert Drain(p, 5) == p5;
    assert Drain(p, 6) == p6;
    assert Drain(p, 7) == p7;
    assert Drain(p, 8) == (p7 << 1) & 0xFF;
  }

  /** Absorbing a byte is feeding its eight bits one at a time. */
  lemma AbsorbIsBitSerial(crc: bv16, b: byte)
    ensures Absorb(crc, b) == BitSteps(crc, Wide(b), 8)
  {
    AbsorbStep(crc, Wide(b), 8);
    DrainEight(Wide(b));
  }

  /** The checksum `calculateCRC` computes is the bit-serial CRC of the message. */
  lemma {:induction false} Crc16IsBitSerial(bytes: seq<byte>)
    ensures Crc16(bytes) == BitSerialCrc(bytes)
    decreases |bytes|
  {
    if |bytes| > 0 {
      Crc16IsBitSerial(bytes[..|bytes| - 1]);
      AbsorbIsBitSerial(Crc16(bytes[..|bytes| - 1]), bytes[|bytes| - 1]);
    }
  }
}
