/** The earlier message generator (mcp443x.c).

    Fields are combined with `+` instead of OR, the memory address of a
    channel is `0x10 << channel` rather than a table entry, and two
    operations return whole frames (modelled as sequences of bytes). The
    `address` and `inc_num` arguments of increment/decrement are accepted
    and ignored. No function here reads a table, so every one is total
    over `uint8_t` inputs.
 */
module ShiftDriver {
  import opened Layout

  /** `0b00010000 << channel`: the shift happens in C `int`, and the result
      is truncated to `uint8_t` when it is stored in `channel_byte`. */
  function ChannelByte(channel: Byte): (r: Byte)
    ensures channel < 4 ==> r == 0x10 << channel
    ensures channel < 4 ==> HighNibble(r) == 1 << channel && LowNibble(r) == 0
    ensures channel >= 4 ==> r == 0
  {
    var wide := 16 * Pow2(channel as nat);
    assert channel >= 4 ==> wide % 256 == 0 by {
      if channel >= 4 { ShiftPastByteIsZero(channel as nat); }
    }
    assert channel < 4 ==> (wide % 256) as Byte == 0x10 << channel by {
      assert Pow2(0) == 1 && Pow2(1) == 2 && Pow2(2) == 4 && Pow2(3) == 8;
    }
    (wide % 256) as Byte
  }

  /** `mcp44xx_address_byte`, additive form: `0x58 + (address << 1)` in
      `uint8_t`. For a wired address it is the write address byte of that
      device and stays below 0x60; the R/W bit is clear for every input.
      The shift drops bit 7, so addresses 128-131 alias devices 0-3, and
      any other address from 4 up carries into the fixed prefix. */
  function McpAddressByte(address: Byte): (r: Byte)
    ensures RwField(r) == WriteBit
    ensures IsAddressByte(r) <==> address % 128 < 4
    ensures address < 4 ==> r == AddressByte(address, WriteBit) && r < 0x60
  {
    AddressPrefix + (address << 1)
  }

  /** `increment_wiper`: opcode 01 added to the shifted channel bit. Only
      `channel` matters. For a wired channel exactly one bit of the high
      nibble is set; past channel 3 the address bit is shifted out and only
      the opcode is left. */
  function IncrementWiper(address: Byte, channel: Byte, incNum: Byte): (r: Byte)
    ensures LowNibble(r) == 0x4
    ensures channel < 4 ==> HighNibble(r) == 1 << channel
    ensures channel >= 4 ==> r == 0x04
  {
    0x04 + ChannelByte(channel)
  }

  /** `decrement_wiper`: opcode 10 added to the shifted channel bit. */
  function DecrementWiper(address: Byte, channel: Byte, incNum: Byte): (r: Byte)
    ensures LowNibble(r) == 0x8
    ensures channel < 4 ==> HighNibble(r) == 1 << channel
    ensures channel >= 4 ==> r == 0x08
  {
    0x08 + ChannelByte(channel)
  }

  /** `set_pot_wiper_val`: the three-byte write frame — write address byte,
      command byte with opcode 00, and the wiper value unchanged. */
  function SetPotWiperVal(address: Byte, channel: Byte, wiperValue: Byte): (r: seq<Byte>)
    ensures |r| == 3
    ensures r[0] == McpAddressByte(address) && RwField(r[0]) == WriteBit
    ensures r[1] == ChannelByte(channel) && OpcodeField(r[1]) == OpWrite && ReservedBits(r[1]) == 0
    ensures r[2] == wiperValue
  {
    var addressByte := AddressPrefix + (address << 1) + WriteBit;
    var commandByte := ChannelByte(channel) + (OpWrite << 2);
    [addressByte, commandByte, wiperValue]
  }

  /** `read_pot_data`: the one-byte read frame — the address byte with the
      R/W bit set. */
  function ReadPotData(address: Byte): (r: seq<Byte>)
    ensures |r| == 1
    ensures RwField(r[0]) == ReadBit
    ensures address < 4 ==> r[0] == AddressByte(address, ReadBit) && PinsField(r[0]) == address
  {
    [AddressPrefix + (address << 1) + ReadBit]
  }

  // ---------------------------------------------------------------------
  // Properties
  // ---------------------------------------------------------------------

  /** Increment and decrement ignore the device address and the count. */
  lemma IgnoresAddressAndCount(a1: Byte, a2: Byte, channel: Byte, n1: Byte, n2: Byte)
    ensures IncrementWiper(a1, channel, n1) == IncrementWiper(a2, channel, n2)
    ensures DecrementWiper(a1, channel, n1) == DecrementWiper(a2, channel, n2)
  {
  }

  /** For a wired channel, `+` composes exactly like the reference layout:
      the memory address is the single bit `1 << channel`. */
  lemma CommandsMatchLayout(address: Byte, channel: Byte, n: Byte, value: Byte)
    requires channel < 4
    ensures IncrementWiper(address, channel, n) == Command(1 << channel, OpIncrement)
    ensures DecrementWiper(address, channel, n) == Command(1 << channel, OpDecrement)
    ensures SetPotWiperVal(address, channel, value)[1] == Command(1 << channel, OpWrite)
  {
  }

  /** Decrement differs from increment only in the opcode bits 3-2. */
  lemma IncrementDecrementDifferInOpcode(address: Byte, channel: Byte, n: Byte)
    requires channel < 4
    ensures IncrementWiper(address, channel, n) ^ DecrementWiper(address, channel, n) == 0x0C
  {
  }

  /** The write frame and the read frame open with address bytes that
      differ in the R/W bit alone, for every address. */
  lemma FramesDifferOnlyInRwBit(address: Byte, channel: Byte, value: Byte)
    ensures SetPotWiperVal(address, channel, value)[0] ^ ReadPotData(address)[0] == 0x01
  {
  }

  /** Reading the pins back from the read frame recovers exactly the wired
      addresses. */
  lemma ReadFramePinsRoundTrip(address: Byte)
    ensures PinsField(ReadPotData(address)[0]) == address <==> address < 4
  {
  }
}
