/** The table-driven message generator (Src/mcp443x.c).

    Each function returns one byte; the caller sends the address byte from
    `McpAddressByte` before the command byte. Wiper channels and TCON
    registers are resolved to a device memory address through two
    four-entry tables; indexing them past the end is undefined in C, so
    every function that reads a table requires `channel < 4`. Fields are
    combined with bitwise OR.
 */
module TableDriver {
  import opened Layout

  /** Device memory address (bits 7-4 of a command byte) of wiper 0..3. */
  const WiperMemoryMap: seq<Byte> := [0x0, 0x1, 0x6, 0x7]

  /** Device memory address of TCON register 0..3; 0/1 and 2/3 share one. */
  const TconMemoryMap: seq<Byte> := [0x4, 0x4, 0xA, 0xA]

  /** `wiper_chan_to_dev_address`: the wiper's memory address, already in
      the high nibble. */
  function WiperChanToDevAddress(channel: Byte): (r: Byte)
    requires channel < 4
    ensures LowNibble(r) == 0
    ensures HighNibble(r) in {0x0, 0x1, 0x6, 0x7}
  {
    WiperMemoryMap[channel as int] << 4
  }

  /** `tcon_num_to_dev_address`: the TCON register's memory address in the
      high nibble; registers 0 and 1 share 0x4, registers 2 and 3 share 0xA. */
  function TconNumToDevAddress(channel: Byte): (r: Byte)
    requires channel < 4
    ensures LowNibble(r) == 0
    ensures r == (if channel < 2 then 0x40 else 0xA0)
  {
    TconMemoryMap[channel as int] << 4
  }

  /** `mcp44xx_address_byte`: the write address byte of the device wired
      to `address`. The fixed bits and the clear R/W bit are present for
      every input; the pins field carries `address` exactly when it fits. */
  function McpAddressByte(address: Byte): (r: Byte)
    ensures r & AddressPrefix == AddressPrefix
    ensures RwField(r) == WriteBit
    ensures PinsField(r) == address <==> address < 4
    ensures address < 4 ==> r == AddressByte(address, WriteBit)
  {
    AddressPrefix | (address << 1)
  }

  /** `increment_wiper`: opcode 01 over the channel's memory address. */
  function IncrementWiper(channel: Byte): (r: Byte)
    requires channel < 4
    ensures LowNibble(r) == 0x4
    ensures r & 0xF0 == WiperChanToDevAddress(channel)
  {
    0x04 | WiperChanToDevAddress(channel)
  }

  /** `decrement_wiper`: opcode 10 over the channel's memory address. */
  function DecrementWiper(channel: Byte): (r: Byte)
    requires channel < 4
    ensures LowNibble(r) == 0x8
    ensures r & 0xF0 == WiperChanToDevAddress(channel)
  {
    0x08 | WiperChanToDevAddress(channel)
  }

  /** `set_pot_terminal_cons_cmd`: opcode 00 over the TCON register's
      memory address, so the command is that address unchanged. */
  function SetPotTerminalConsCmd(channel: Byte): (r: Byte)
    requires channel < 4
    ensures OpcodeField(r) == OpWrite && ReservedBits(r) == 0
    ensures r == TconNumToDevAddress(channel)
  {
    0x00 | TconNumToDevAddress(channel)
  }

  /** `set_pot_terminal_cons_data`: a stub that encodes none of the switch
      states and always yields the zero data byte. */
  function SetPotTerminalConsData(channel: Byte, hwConfig: bool, termA: bool, termW: bool, termB: bool): (r: Byte)
    ensures r == 0x00
  {
    0x00
  }

  /** `set_pot_wiper_val`: opcode 00 over the channel's memory address, so
      the command is that address unchanged. */
  function SetPotWiperVal(channel: Byte): (r: Byte)
    requires channel < 4
    ensures OpcodeField(r) == OpWrite && ReservedBits(r) == 0
    ensures r == WiperChanToDevAddress(channel)
  {
    0x00 | WiperChanToDevAddress(channel)
  }

  /** `read_pot_data`: opcode 11 over the channel's memory address. */
  function ReadPotData(channel: Byte): (r: Byte)
    requires channel < 4
    ensures LowNibble(r) == 0xC
    ensures r & 0xF0 == WiperChanToDevAddress(channel)
  {
    0x0C | WiperChanToDevAddress(channel)
  }

  /** `read_tcon_data`: opcode 11 over the TCON register's memory address. */
  function ReadTconData(channel: Byte): (r: Byte)
    requires channel < 4
    ensures LowNibble(r) == 0xC
    ensures r & 0xF0 == TconNumToDevAddress(channel)
  {
    0x0C | TconNumToDevAddress(channel)
  }

  // ---------------------------------------------------------------------
  // Properties
  // ---------------------------------------------------------------------

  /** The wiper table, entry by entry. */
  lemma WiperMemoryAddresses()
    ensures WiperChanToDevAddress(0) == 0x00
    ensures WiperChanToDevAddress(1) == 0x10
    ensures WiperChanToDevAddress(2) == 0x60
    ensures WiperChanToDevAddress(3) == 0x70
  {
  }

  /** Distinct wiper channels address distinct device memory. */
  lemma WiperAddressInjective(c1: Byte, c2: Byte)
    requires c1 < 4 && c2 < 4
    ensures WiperChanToDevAddress(c1) == WiperChanToDevAddress(c2) <==> c1 == c2
  {
  }

  /** TCON registers 0/1 and 2/3 alias pairwise; the two pairs differ. */
  lemma TconAliasing(c1: Byte, c2: Byte)
    requires c1 < 4 && c2 < 4
    ensures TconNumToDevAddress(c1) == TconNumToDevAddress(c2) <==> c1 / 2 == c2 / 2
  {
  }

  /** A wiper address never coincides with a TCON address. */
  lemma WiperAndTconDisjoint(c1: Byte, c2: Byte)
    requires c1 < 4 && c2 < 4
    ensures WiperChanToDevAddress(c1) != TconNumToDevAddress(c2)
  {
  }

  /** Every command byte is the reference composition of the resolved
      memory address and its operation code. */
  lemma CommandsMatchLayout(channel: Byte)
    requires channel < 4
    ensures SetPotWiperVal(channel) == Command(WiperMemoryMap[channel as int], OpWrite)
    ensures IncrementWiper(channel) == Command(WiperMemoryMap[channel as int], OpIncrement)
    ensures DecrementWiper(channel) == Command(WiperMemoryMap[channel as int], OpDecrement)
    ensures ReadPotData(channel) == Command(WiperMemoryMap[channel as int], OpRead)
    ensures SetPotTerminalConsCmd(channel) == Command(TconMemoryMap[channel as int], OpWrite)
    ensures ReadTconData(channel) == Command(TconMemoryMap[channel as int], OpRead)
  {
  }

  /** For one channel the four wiper commands are pairwise distinct, share
      their memory address, and leave bits 1-0 clear. */
  lemma WiperCommandsDistinct(channel: Byte)
    requires channel < 4
    ensures var cmds := [SetPotWiperVal(channel), IncrementWiper(channel),
                         DecrementWiper(channel), ReadPotData(channel)];
      (forall i, j :: 0 <= i < j < 4 ==> cmds[i] != cmds[j]) &&
      (forall i :: 0 <= i < 4 ==> ReservedBits(cmds[i]) == 0 &&
                                  HighNibble(cmds[i]) == WiperMemoryMap[channel as int])
  {
  }

  /** Decrement differs from increment only in the opcode bits 3-2. */
  lemma IncrementDecrementDifferInOpcode(channel: Byte)
    requires channel < 4
    ensures IncrementWiper(channel) ^ DecrementWiper(channel) == 0x0C
  {
  }

  /** Corollary of the contract of `SetPotTerminalConsData`: the TCON data
      byte does not depend on any switch state. */
  lemma TerminalConsDataIgnoresSwitches(channel: Byte, h1: bool, a1: bool, w1: bool, b1: bool,
                                        h2: bool, a2: bool, w2: bool, b2: bool)
    ensures SetPotTerminalConsData(channel, h1, a1, w1, b1) == SetPotTerminalConsData(channel, h2, a2, w2, b2)
  {
  }

  /** Address pins beyond the two wired ones are silently folded: address
      `a | 4` selects the same device as `a`. */
  lemma AddressByteFoldsBit2(address: Byte)
    ensures McpAddressByte(address | 4) == McpAddressByte(address)
  {
  }
}
