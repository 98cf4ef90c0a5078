# MCP443x/MCP445x I2C message encoder — Dafny model

This project models the byte-frame encoder for the MCP443x/MCP445x family of
quad digital potentiometers. It is pure logic. The encoder builds:

- the device address (control) byte: the fixed prefix `01011`, the two
  address-pin bits and the R/W bit;
- the command byte: a 4-bit device memory address in bits 7-4 and a 2-bit
  opcode in bits 3-2 (write `00`, increment `01`, decrement `10`, read `11`);
- in the earlier variant, whole write and read frames.

The repository holds two divergent versions of the encoder. Each one is a
module of its own, and the two are not reconciled:

- `TableDriver` (`Src/mcp443x.c`) resolves wiper channels and TCON registers
  through two four-entry tables. It combines fields with bitwise OR and
  returns single bytes.
- `ShiftDriver` (`mcp443x.c`) uses `0x10 << channel` as the memory address
  and combines fields with `+`. It builds a 3-byte write frame and a 1-byte
  read frame.
- `Layout` names the fields of both byte kinds. It gives reference composers
  (`Command`, `AddressByte`) and proves that the field extractors invert them.
- `Divergence` records where the two versions agree and where they differ.

Bytes are `bv8`. C's `uint8_t` truncation after `<<` and `+` is exactly
`bv8` wrap-around. The C shift `0x10 << channel` is done in `int` and only
then truncated, so it is modelled as `(16 * 2^channel) mod 256`. The global
`read_bit`/`write_bit` variables are the constants `ReadBit = 1` and
`WriteBit = 0`.

Facts about the C code that shape the model:

- Out-of-range channels are a precondition, because the C code indexes
  past the four-entry table (Src/mcp443x.c:50, Src/mcp443x.c:80).
- The earlier variant combines fields with `+` and takes the memory
  address from `0x10 << channel` (mcp443x.c:81-84).
- The read frame is the single address byte with the R/W bit set
  (mcp443x.c:185-191).

What the two versions do:

- For every wired address (0-3) the two address bytes agree.
  `Divergence.AddressBytesAgreeIffNoCarry` states exactly when OR and `+`
  coincide.
- On every wired channel the two versions send a different memory address
  for the same wiper command. Channel 0 is memory address 0x0 in the table
  version and 0x1 in the shift version. Channel 2 in the shift version hits
  0x4, which the table version uses for TCON registers 0 and 1.
- Past channel 3 the shift version shifts the address bit out of the byte.
  It then sends the bare opcode, which targets memory address 0 (wiper 0).

## Model

| member | source | states |
|---|---|---|
| Layout.Command | Src/mcp443x.c:31-33 | a command byte built from a memory address below 16 and a 2-bit opcode carries that address in bits 7-4, the opcode in bits 3-2, and clear bits 1-0 |
| Layout.CommandFromFields | Src/mcp443x.c:31-33 | every byte with bits 1-0 clear is the command built from its own address and opcode fields (the inverse direction of the round trip) |
| Layout.CommandInjective | Src/mcp443x.c:31-33 | two command bytes are equal if and only if their memory addresses and opcodes are equal |
| Layout.AddressByte | mcp443x.c:11-13 | an address byte built from a 2-bit pin selector and an R/W bit has the prefix 01011, carries the selector in bits 2-1 and the R/W bit in bit 0 |
| Layout.AddressByteFromFields | mcp443x.c:11-13 | every byte with the 01011 prefix is the address byte built from its own pin and R/W fields |
| Layout.ShiftPastByteIsZero | mcp443x.c:81 | `0x10 << n`, computed in int and truncated to 8 bits, is 0 for every n of 4 or more |
| TableDriver.WiperChanToDevAddress | Src/mcp443x.c:41-55 | for channels 0-3 the result has a zero low nibble, and its high nibble is one of the wiper memory addresses 0x0, 0x1, 0x6, 0x7 |
| TableDriver.TconNumToDevAddress | Src/mcp443x.c:71-85 | registers 0 and 1 resolve to 0x40 and registers 2 and 3 to 0xA0, with a zero low nibble |
| TableDriver.McpAddressByte | Src/mcp443x.c:98-112 | for every input the bits of 0x58 are set and the R/W bit is 0. The pins field equals the input if and only if the input is below 4, and then the byte is the reference write address byte |
| TableDriver.IncrementWiper | Src/mcp443x.c:129-138 | the low nibble is exactly 0b0100 and the high nibble is the channel's resolved memory address |
| TableDriver.DecrementWiper | Src/mcp443x.c:157-166 | the low nibble is exactly 0b1000 and the high nibble is the channel's resolved memory address |
| TableDriver.SetPotTerminalConsCmd | Src/mcp443x.c:182-191 | the opcode is write (00) with clear reserved bits, so the command is the TCON register's resolved address unchanged |
| TableDriver.SetPotTerminalConsData | Src/mcp443x.c:209-218 | the data byte is 0x00 for every channel and switch state |
| TableDriver.SetPotWiperVal | Src/mcp443x.c:234-243 | the opcode is write (00) with clear reserved bits, so the command is the wiper's resolved address unchanged |
| TableDriver.ReadPotData | Src/mcp443x.c:258-267 | the low nibble is exactly 0b1100 and the high nibble is the channel's resolved memory address |
| TableDriver.ReadTconData | Src/mcp443x.c:280-289 | the low nibble is exactly 0b1100 and the high nibble is the TCON register's resolved memory address |
| TableDriver.WiperMemoryAddresses | Src/mcp443x.c:47 | channels 0, 1, 2, 3 resolve to 0x00, 0x10, 0x60, 0x70 |
| TableDriver.WiperAddressInjective | Src/mcp443x.c:41-55 | two channels resolve to the same memory address if and only if they are the same channel |
| TableDriver.TconAliasing | Src/mcp443x.c:71-85 | two TCON registers share a memory address if and only if they are in the same pair (0/1 or 2/3) |
| TableDriver.WiperAndTconDisjoint | Src/mcp443x.c:47-77 | no wiper memory address coincides with a TCON memory address |
| TableDriver.CommandsMatchLayout | Src/mcp443x.c:129-289 | each of the six commands equals the reference command built from the table entry and that operation's opcode |
| TableDriver.WiperCommandsDistinct | Src/mcp443x.c:129-267 | for one channel, the write, increment, decrement and read commands are pairwise distinct. All four share the memory address and leave bits 1-0 clear |
| TableDriver.IncrementDecrementDifferInOpcode | Src/mcp443x.c:129-166 | for the same channel, increment and decrement differ only in bits 3-2 |
| TableDriver.TerminalConsDataIgnoresSwitches | Src/mcp443x.c:209-218 | corollary of the stub's contract: the TCON data byte is the same whatever the four switch states are |
| TableDriver.AddressByteFoldsBit2 | Src/mcp443x.c:98-112 | setting bit 2 of the address argument leaves the address byte unchanged, so address 4 selects the same device as address 0 |
| ShiftDriver.ChannelByte | mcp443x.c:80-81 | below channel 4 the byte is `0x10 << channel`: exactly one high-nibble bit set and a zero low nibble. From channel 4 up it is 0 |
| ShiftDriver.McpAddressByte | mcp443x.c:45-59 | the R/W bit is 0 for every input. The 01011 prefix survives if and only if the address modulo 128 is below 4, so 128-131 alias devices 0-3 and every other address from 4 up breaks the prefix. For address < 4 the result is the reference write address byte for that address and stays below 0x60 |
| ShiftDriver.IncrementWiper | mcp443x.c:75-88 | the low nibble is exactly 0b0100. For channel < 4 the high nibble is the single bit `1 << channel`. From channel 4 up the byte is 0x04 |
| ShiftDriver.DecrementWiper | mcp443x.c:106-119 | the low nibble is exactly 0b1000. For channel < 4 the high nibble is the single bit `1 << channel`. From channel 4 up the byte is 0x08 |
| ShiftDriver.SetPotWiperVal | mcp443x.c:155-170 | the frame is exactly 3 bytes: the write address byte (R/W 0), the shifted channel byte with opcode 00 and clear reserved bits, and the wiper value unchanged |
| ShiftDriver.ReadPotData | mcp443x.c:185-191 | the frame is exactly 1 byte with the R/W bit set. For address < 4 it is the reference read address byte and its pins field recovers the address |
| ShiftDriver.IgnoresAddressAndCount | mcp443x.c:75-119 | increment and decrement depend on the channel only, not on the device address or the step count |
| ShiftDriver.CommandsMatchLayout | mcp443x.c:75-170 | for channel < 4, adding the opcode gives the same byte as the reference command for memory address `1 << channel` (there is no carry) |
| ShiftDriver.IncrementDecrementDifferInOpcode | mcp443x.c:75-119 | for channel < 4, increment and decrement differ only in bits 3-2 |
| ShiftDriver.FramesDifferOnlyInRwBit | mcp443x.c:155-191 | for every address, the first byte of the write frame and the byte of the read frame differ only in bit 0 |
| ShiftDriver.ReadFramePinsRoundTrip | mcp443x.c:185-191 | the pins field of the read frame's byte equals the address if and only if the address is below 4 |
| Divergence.AddressBytesAgreeIffNoCarry | mcp443x.c:45-59 | the OR-form and `+`-form address bytes are equal if and only if the shifted address shares no bit with 0x58 |
| Divergence.AddressBytesAgreeOnWiredAddresses | Src/mcp443x.c:98-112 | for every address below 4 both versions produce the same address byte |
| Divergence.AddressBytesDivergeAtFour | mcp443x.c:45-59 | at address 4 the OR form gives 0x58 (device 0) and the `+` form gives 0x60 |
| Divergence.WiperCommandsDisagree | mcp443x.c:75-170 | on every channel below 4, the increment, decrement and write commands of the two versions differ, while their opcodes agree |
| Divergence.ChannelZeroMapsDifferently | mcp443x.c:81 | channel 0 is memory 0x00 (increment 0x04) in the table version and 0x10 (increment 0x14) in the shift version |
| Divergence.ShiftChannelTwoIsTconAddress | mcp443x.c:75-88 | the shift version's channel 2 targets memory address 0x4, which the table version assigns to TCON registers 0 and 1 |
| Divergence.FramesUseTableAddressByte | mcp443x.c:155-191 | for address < 4, the write frame opens with the table version's address byte, and the read frame's byte is that byte with the R/W bit set |
| Divergence.WriteFrameForChannelThree | mcp443x.c:155-170 | writing 0x7F to wiper 3 of device 0 gives the frame 0x58, 0x80, 0x7F in the earlier version. The table version gives address byte 0x58 and command 0x70 |

## Left out

- Test driver: `main` under `#if MY_SWITCH` (mcp443x.c:197-208) only prints. Its print loop also reads past the 1-byte read frame.
- Allocation: the `malloc`ed buffers of `set_pot_wiper_val` and `read_pot_data` are returned sequences. Allocation failure is not modelled.
- `set_pot_terminal_cons` (mcp443x.c:135-137) returns a null pointer and has no logic.
- Globals: `read_bit`/`write_bit` are never changed, so they are constants, and the model has no module state.
- Out-of-range table reads: indexing a four-entry table with a channel of 4 or more is undefined in C. The table-reading functions require `channel < 4` and do not emulate the read.
- TableDriver.SetPotTerminalConsData: the source also reads the TCON table (undefined past channel 3) and then discards the value. The model leaves out that dead read, so the function is total.
- ShiftDriver.ChannelByte: with a 32-bit C `int`, `0x10 << channel` overflows or exceeds the width of `int` for shift amounts of 27 and more, and is undefined (with a 16-bit `int`, from 11). The model gives the unbounded-integer value there (0 after truncation) and does not model what a compiler or CPU would actually produce.
- ShiftDriver.IncrementWiper, ShiftDriver.DecrementWiper: the ignored `address` and `inc_num` arguments are kept only so the signatures match. They do not repeat the command `inc_num` times.
- The header `mcp443x.h` is not part of this model. Bus transport (start/stop conditions, acknowledge bits, high-speed mode) and any I2C hardware layer are outside the encoder.
