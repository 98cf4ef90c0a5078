/** Wire layout of the bytes exchanged with an MCP443x/MCP445x digital
    potentiometer on the I2C bus (bit 7 is the most significant bit):

      address (control) byte:  0 1 0 1 1 A1 A0 R/W
      command byte:            D3 D2 D1 D0 C1 C0 0 0

    where A1 A0 are the two hardware address pins, R/W is 1 for a read and
    0 for a write, D3..D0 is the device memory address and C1 C0 the
    operation code. This module names the fields, gives reference
    composers for both byte kinds, and proves that the field extractors
    invert the composers. Both driver variants are stated against it.
 */
module Layout {

  /** A C `uint8_t`: arithmetic and shifts on it wrap modulo 256. */
  type Byte = bv8

  /** The R/W bit of an address byte (the drivers' `read_bit`/`write_bit`). */
  const WriteBit: Byte := 0
  const ReadBit: Byte := 1

  /** The fixed part of every address byte, 0b0101_1000. */
  const AddressPrefix: Byte := 0x58

  /** The five fixed bits 0b01011 as they read once shifted down by three. */
  const PrefixBits: Byte := 0x0B

  /** The 2-bit operation codes carried in bits 3-2 of a command byte. */
  const OpWrite: Byte := 0
  const OpIncrement: Byte := 1
  const OpDecrement: Byte := 2
  const OpRead: Byte := 3

  // ---------------------------------------------------------------------
  // Field extractors
  // ---------------------------------------------------------------------

  /** Bits 7-4: the memory address of a command byte. */
  function HighNibble(b: Byte): Byte { b >> 4 }

  /** Bits 3-0: opcode and the two reserved bits of a command byte. */
  function LowNibble(b: Byte): Byte { b & 0x0F }

  /** Bits 3-2: the operation code of a command byte. */
  function OpcodeField(b: Byte): Byte { (b >> 2) & 3 }

  /** Bits 1-0: reserved in a command byte (data bits D9 D8 of the device). */
  function ReservedBits(b: Byte): Byte { b & 3 }

  /** Bits 7-3: the fixed prefix of an address byte. */
  function PrefixField(b: Byte): Byte { b >> 3 }

  /** Bits 2-1: the hardware address pins A1 A0 of an address byte. */
  function PinsField(b: Byte): Byte { (b >> 1) & 3 }

  /** Bit 0: the R/W bit of an address byte. */
  function RwField(b: Byte): Byte { b & 1 }

  /** A well-formed address byte: fixed prefix present. */
  predicate IsAddressByte(b: Byte) { PrefixField(b) == PrefixBits }

  // ---------------------------------------------------------------------
  // Reference composers and their inverses
  // ---------------------------------------------------------------------

  /** The command byte for memory address `memory` and operation `op`. */
  function Command(memory: Byte, op: Byte): (r: Byte)
    requires memory < 16 && op < 4
    ensures HighNibble(r) == memory
    ensures OpcodeField(r) == op
    ensures ReservedBits(r) == 0
  {
    (memory << 4) | (op << 2)
  }

  /** Every command byte with clear reserved bits is the composition of
      its own memory-address and opcode fields. */
  lemma CommandFromFields(b: Byte)
    requires ReservedBits(b) == 0
    ensures Command(HighNibble(b), OpcodeField(b)) == b
  {
  }

  /** Two command bytes are equal exactly when both fields agree. */
  lemma CommandInjective(m1: Byte, op1: Byte, m2: Byte, op2: Byte)
    requires m1 < 16 && op1 < 4 && m2 < 16 && op2 < 4
    ensures Command(m1, op1) == Command(m2, op2) <==> m1 == m2 && op1 == op2
  {
  }

  /** The address byte selecting the device wired to `pins`, in direction `rw`. */
  function AddressByte(pins: Byte, rw: Byte): (r: Byte)
    requires pins < 4 && rw < 2
    ensures IsAddressByte(r)
    ensures PinsField(r) == pins
    ensures RwField(r) == rw
  {
    AddressPrefix | (pins << 1) | rw
  }

  /** Every well-formed address byte is the composition of its own fields. */
  lemma AddressByteFromFields(b: Byte)
    requires IsAddressByte(b)
    ensures AddressByte(PinsField(b), RwField(b)) == b
  {
  }

  // ---------------------------------------------------------------------
  // Powers of two, for shifts performed on C `int` before truncation
  // ---------------------------------------------------------------------

  function Pow2(n: nat): nat
  {
    if n == 0 then 1 else 2 * Pow2(n - 1)
  }

  /** Four more doublings multiply by sixteen. */
  lemma {:induction false} Pow2AddFour(n: nat)
    requires n >= 4
    ensures Pow2(n) == 16 * Pow2(n - 4)
  {
    if n > 4 {
      Pow2AddFour(n - 1);
    }
  }

  /** `0x10 << n` computed in C `int` and truncated to `uint8_t` is zero
      as soon as the set bit is shifted past bit 7. */
  lemma {:induction false} ShiftPastByteIsZero(n: nat)
    requires n >= 4
    ensures (16 * Pow2(n)) % 256 == 0
  {
    Pow2AddFour(n);
    assert 16 * Pow2(n) == 256 * Pow2(n - 4);
  }
}
