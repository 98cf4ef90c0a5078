/** How the two generators relate. They are kept separate and are not
    reconciled: these lemmas record where they agree and where they do
    not. */
module Divergence {
  import opened Layout
  import TableDriver
  import ShiftDriver

  /** OR and `+` give the same address byte exactly when the shifted
      address shares no bit with the fixed prefix 0x58 (no carry). */
  lemma AddressBytesAgreeIffNoCarry(address: Byte)
    ensures TableDriver.McpAddressByte(address) == ShiftDriver.McpAddressByte(address)
            <==> (address << 1) & AddressPrefix == 0
  {
  }

  /** For every wired address the two address bytes are the same byte. */
  lemma AddressBytesAgreeOnWiredAddresses(address: Byte)
    requires address < 4
    ensures TableDriver.McpAddressByte(address) == ShiftDriver.McpAddressByte(address)
  {
    AddressBytesAgreeIffNoCarry(address);
  }

  /** Address 4 is where the two first part: OR folds it onto device 0,
      `+` carries into the prefix. */
  lemma AddressBytesDivergeAtFour()
    ensures TableDriver.McpAddressByte(4) == 0x58
    ensures ShiftDriver.McpAddressByte(4) == 0x60
  {
  }

  /** On every wired channel the two variants send a different memory
      address for the same wiper command, while the opcode agrees. */
  lemma WiperCommandsDisagree(address: Byte, channel: Byte, n: Byte, value: Byte)
    requires channel < 4
    ensures TableDriver.IncrementWiper(channel) != ShiftDriver.IncrementWiper(address, channel, n)
    ensures TableDriver.DecrementWiper(channel) != ShiftDriver.DecrementWiper(address, channel, n)
    ensures TableDriver.SetPotWiperVal(channel) != ShiftDriver.SetPotWiperVal(address, channel, value)[1]
    ensures OpcodeField(TableDriver.IncrementWiper(channel))
            == OpcodeField(ShiftDriver.IncrementWiper(address, channel, n))
    ensures OpcodeField(TableDriver.DecrementWiper(channel))
            == OpcodeField(ShiftDriver.DecrementWiper(address, channel, n))
  {
  }

  /** Channel 0 is wiper memory 0x0 in the table but 0x1 in the shift form. */
  lemma ChannelZeroMapsDifferently(address: Byte, n: Byte)
    ensures TableDriver.WiperChanToDevAddress(0) == 0x00
    ensures ShiftDriver.ChannelByte(0) == 0x10
    ensures TableDriver.IncrementWiper(0) == 0x04
    ensures ShiftDriver.IncrementWiper(address, 0, n) == 0x14
  {
  }

  /** The shift form's channel 2 lands on memory address 0x4, the address
      the table form gives to TCON registers 0 and 1. */
  lemma ShiftChannelTwoIsTconAddress(address: Byte, n: Byte)
    ensures HighNibble(ShiftDriver.IncrementWiper(address, 2, n))
            == HighNibble(TableDriver.TconNumToDevAddress(0))
  {
  }

  /** The earlier driver's read frame is the table driver's address byte
      with the R/W bit set, and its write frame opens with that address
      byte itself, for every wired address. */
  lemma FramesUseTableAddressByte(address: Byte, channel: Byte, value: Byte)
    requires address < 4
    ensures ShiftDriver.ReadPotData(address)[0] == TableDriver.McpAddressByte(address) | ReadBit
    ensures ShiftDriver.SetPotWiperVal(address, channel, value)[0] == TableDriver.McpAddressByte(address)
  {
  }

  /** Writing 0x7F to wiper 3 of device 0: the earlier driver's frame
      carries memory address 0x8, the table driver's command 0x7. */
  lemma WriteFrameForChannelThree()
    ensures ShiftDriver.SetPotWiperVal(0, 3, 0x7F) == [0x58, 0x80, 0x7F]
    ensures TableDriver.McpAddressByte(0) == 0x58
    ensures TableDriver.SetPotWiperVal(3) == 0x70
  {
  }
}
