# NES picture processor: register file and timing sequencer

A Dafny model of `nes/ppu.go`, the part of the NES emulator that models the
Ricoh 2C02 picture processor (PPU) as the CPU sees it. The model has two
parts that share the vertical-blank bit:

- **The register file.** `ReadRegister` and `WriteRegister` dispatch a CPU
  access on its port address:
  - PPUCTRL ($2000) and PPUMASK ($2001) decode a byte into flags;
  - PPUSTATUS ($2002) reports the vertical-blank bit and clears it;
  - OAMADDR and OAMDATA ($2003, $2004) reach the 256-byte object attribute
    memory (OAM) through a wrapping 8-bit cursor;
  - PPUSCROLL and PPUADDR ($2005, $2006) shift bytes into 16-bit latches;
  - PPUDATA ($2007) reads or writes the PPU address space at the address
    latch, then steps the latch by 1 or 32;
  - OAMDMA ($4014) copies a 256-byte CPU page into OAM.
- **The timing sequencer.** `tick` advances the (Cycle, ScanLine, Frame)
  counters by one dot. `Step` ticks, raises the vertical-blank bit on dot 1
  of scanline 241 and lowers it on dot 1 of scanline 261. `Reset` sets the
  power-on state.

The project has four files:

- `ppu_bits.dfy` (module `PpuBits`): the bit-level encodings.
  - The control and mask flag records with their encode and decode
    functions. Go's `(v >> k) & m` is written `Shr(v, k) % (m + 1)`.
  - The status byte, the shift-in of a latch, the data-port step and the
    OAM cursor arithmetic.
- `sequencer.dfy` (module `Sequencer`): the counters and the
  vertical-blank bit as values (`Clock`, `Timing`), with pure `Tick` and
  `Step` functions.
- `registers.dfy` (module `Registers`): the whole register file as a value
  (`RegisterFile`). Pure functions give what each port access returns and
  what it leaves behind:
  - `ReadValue` and `AfterRead` for reads;
  - `AfterWrite`, `OamAfterWrite` and `MemoryAfterWrite` for writes;
  - `DmaImage` for the OAM image an OAMDMA leaves.
  The protocol properties are lemmas about these functions.
- `ppu.dfy` (module `Ppu`): the class `PPU`, with the Go struct's fields
  and one method per Go method. Each method states its new state as a
  function of its old state through the pure functions above:
  `Regs() == AfterWrite(old(Regs()), port, value)`. `Valid()` is the object
  invariant. `Reset`, `ReadRegister`, `WriteRegister` and `Step` keep it;
  `Tick`, which stands for the source's private `tick`, keeps the counters
  in range but not the vertical-blank part, which only `Step` restores:
  - the arrays have their sizes;
  - the nametable selector is two bits and every other flag one bit;
  - the counters are in range;
  - the vertical-blank bit is set only inside the vertical-blank window.

  Three small sessions (`PowerOnStatusReads`, `OamReadBack`,
  `AddressThenData`) drive a fresh `PPU` through its public methods.

## Model

| member | source | states |
|---|---|---|
| PpuBits.DecodeControlBits | nes/ppu.go:103-111 | the PPUCTRL flags are the byte's bit fields: the nametable selector is `value & 3`, and the other six flags are bits 2 to 7 |
| PpuBits.DecodeMaskBits | nes/ppu.go:114-122 | the PPUMASK flags are bits 0 to 7 of the byte, one each |
| PpuBits.ShrSucc | nes/ppu.go:104-110 | shifting one more place right halves the shifted byte, so the recursive `Shr` is Go's `>>` |
| PpuBits.ShrByPowers | nes/ppu.go:104-110 | `value >> k` is `value / 2^k` for k = 1 to 7 |
| PpuBits.DecodeControlLossless | nes/ppu.go:103-111 | the decoded control flags are in range (a 2-bit selector and six bits) and encode back to the byte written: no bit is lost |
| PpuBits.DecodeMaskLossless | nes/ppu.go:114-122 | the decoded mask flags are bits and encode back to the byte written |
| PpuBits.EncodeControlInjective | nes/ppu.go:14-21 | two in-range control flag records with the same encoding are equal |
| PpuBits.EncodeMaskInjective | nes/ppu.go:23-31 | two mask flag records with the same encoding are equal |
| PpuBits.EncodeDecodeControl | nes/ppu.go:103-111 | every in-range control record is a byte, and decoding it gives the record back: the round trip in the other direction |
| PpuBits.EncodeDecodeMask | nes/ppu.go:114-122 | the same round trip for mask records |
| PpuBits.DecodeControlInjective | nes/ppu.go:103-111 | distinct PPUCTRL bytes leave distinct flags |
| PpuBits.DecodeMaskInjective | nes/ppu.go:114-122 | distinct PPUMASK bytes leave distinct flags |
| PpuBits.StatusByte | nes/ppu.go:126-131 | the status byte has bits 0 to 6 clear and bit 7 equal to bit 0 of the vertical-blank field, as the byte-truncated `VerticalBlank << 7` gives |
| PpuBits.ShiftIn | nes/ppu.go:150-159 | after a latch write the low byte is the byte written and the high byte is the old low byte (shift by 8, then OR, in 16 bits) |
| PpuBits.LatchTwoWrites | nes/ppu.go:150-159 | two latch writes, hi then lo, leave `hi * 256 + lo` whatever the latch held |
| PpuBits.OamSlotsDistinct | nes/ppu.go:187-191 | the OAM cursor positions of the first i DMA iterations all differ from the i-th, for i < 256 |
| PpuBits.OamSlotOffset | nes/ppu.go:187-191 | every OAM entry j is reached by the DMA loop, in iteration `(j - start) mod 256` |
| PpuBits.PageBase | nes/ppu.go:186 | the DMA source address `uint16(value) << 8` has low byte 0 and high byte `value` |
| Sequencer.Tick | nes/ppu.go:195-205 | `tick` keeps Cycle in 0..340 and ScanLine in 0..261 and advances the mixed-radix position by exactly one; Frame goes up exactly when the counters wrap from (340, 261) |
| Sequencer.TickNAdvancesPosition | nes/ppu.go:195-205 | n ticks keep the counters in range and advance the position by n |
| Sequencer.PositionDeterminesClock | nes/ppu.go:9-11 | counters in range are determined by their position |
| Sequencer.FrameIsWholeFrames | nes/ppu.go:195-205 | the frame counter is the number of whole 341 x 262 frames in the position |
| Sequencer.FramePeriod | nes/ppu.go:195-205 | k x 341 x 262 ticks return Cycle and ScanLine to where they were and add k to Frame |
| Sequencer.FramesAfter | nes/ppu.go:195-205 | after n ticks, Frame counts the wraps: it is the whole frames in the old position plus n |
| Sequencer.Step | nes/ppu.go:208-216 | `Step` ticks; it leaves the bit at 1 on (241, 1) and at 0 on (261, 1); the bit changes only on dot 1 of scanline 241 or 261 |
| Sequencer.StepKeepsVBlankExact | nes/ppu.go:208-216 | if the bit equals "inside the vertical-blank window", it still does after a step |
| Sequencer.StepKeepsVBlankSound | nes/ppu.go:208-216 | if the bit is 0 or 1 and set only inside the window, that still holds after a step |
| Sequencer.RunClock | nes/ppu.go:208-216 | n steps move the counters as n ticks do |
| Sequencer.RunKeepsVBlankExact | nes/ppu.go:208-216 | without status reads, any number of steps keeps the bit equal to "inside the window" |
| Sequencer.VBlankFromPowerOn | nes/ppu.go:55-59 | from the power-on counters (340, 240, 0) with the bit clear, every run of steps keeps the bit equal to "inside the window" |
| Sequencer.PowerOnTwoSteps | nes/ppu.go:208-216 | from power-on, one step reaches (0, 241) with the bit clear, and two steps reach (1, 241) with it set |
| Sequencer.RunFramePeriod | nes/ppu.go:208-216 | without status reads, 341 x 262 steps return the whole timing state, bit included, one frame later |
| Registers.ReadValue | nes/ppu.go:65-77 | a read succeeds exactly on ports $2002, $2004 and $2007; any other port yields the unhandled-read error |
| Registers.OamAfterWrite | nes/ppu.go:79-100 | only OAMDATA and OAMDMA writes change OAM, which stays 256 bytes |
| Registers.MemoryAfterWrite | nes/ppu.go:173-180 | only a PPUDATA write changes the PPU address space |
| Registers.DmaImage | nes/ppu.go:183-192 | the OAMDMA image has 256 entries |
| Registers.DmaImageAt | nes/ppu.go:183-192 | after OAMDMA from page p with cursor c, entry `(c + i) mod 256` holds CPU byte `p * 256 + i`, for every i below 256 |
| Registers.DmaImageFromSlots | nes/ppu.go:187-191 | an OAM that holds byte i of the page i entries after the cursor, for all i below 256, is the OAMDMA image |
| Registers.DmaStep | nes/ppu.go:187-191 | one loop iteration adds byte i of the page at entry `(c + i) mod 256` and keeps the entries already copied |
| Registers.WriteKeepsTiming | nes/ppu.go:79-100 | no register write touches the counters or the vertical-blank bit |
| Registers.ReadKeepsClock | nes/ppu.go:65-77 | no register read touches the counters, so the frame counter counts whole frames whatever the CPU reads in between |
| Registers.OamWritesAdvanceCursor | nes/ppu.go:144-147 | after n OAMDATA writes from cursor c the cursor is `(c + n) mod 256` and no other register has changed |
| Registers.WriteKeepsConsistent | nes/ppu.go:79-100 | every write keeps the flags in range and the bit sound |
| Registers.ReadKeepsConsistent | nes/ppu.go:65-77 | every read keeps the flags in range and the bit sound |
| Registers.UnhandledWriteChangesNothing | nes/ppu.go:97-98 | a write to an unimplemented port changes neither the registers, nor OAM, nor memory |
| Registers.ControlLastWriteWins | nes/ppu.go:103-111 | of two PPUCTRL writes in a row only the second has any effect: nothing of the first survives |
| Registers.MaskLastWriteWins | nes/ppu.go:114-122 | the same for PPUMASK |
| Registers.AddressTwoWrites | nes/ppu.go:156-159 | two PPUADDR writes, hi then lo, set the address latch to `hi * 256 + lo` |
| Registers.ScrollTwoWrites | nes/ppu.go:150-153 | two PPUSCROLL writes, hi then lo, set the scroll latch to `hi * 256 + lo` |
| Registers.StatusReadClears | nes/ppu.go:126-131 | a status read returns the bit in bit 7; a second read straight after it returns 0 |
| Registers.OamWriteReadBack | nes/ppu.go:134-147 | a byte written through OAMDATA at cursor c reads back through OAMDATA once OAMADDR is set to c again |
| Registers.DataWriteReadBack | nes/ppu.go:156-180 | in the flat-memory model of the PPU address space, a byte written through PPUDATA at the address set by PPUADDR reads back once PPUADDR is set to the same address again |
| Ppu.PPU.constructor | nes/ppu.go:49-53 | `NewPPU`: OAM zeroed, the given memory attached, and the registers in the power-on state that `Reset` sets |
| Ppu.PPU.Reset | nes/ppu.go:55-63 | counters (340, 240, 0), the bit clear, control and mask decoded from 0, OAM cursor 0; the scroll and address latches unchanged; the invariant established |
| Ppu.PPU.ReadRegister | nes/ppu.go:65-77 | returns `ReadValue` of the old registers and leaves `AfterRead` of them; an unhandled port is an error that changes nothing; keeps the invariant |
| Ppu.PPU.WriteRegister | nes/ppu.go:79-100 | succeeds exactly on the writable ports; leaves the registers, OAM and memory as `AfterWrite`, `OamAfterWrite` and `MemoryAfterWrite` give; keeps the invariant |
| Ppu.PPU.WriteControl | nes/ppu.go:103-111 | replaces all control flags by the decoding of the byte, nothing else |
| Ppu.PPU.WriteMask | nes/ppu.go:114-122 | replaces all mask flags by the decoding of the byte, nothing else |
| Ppu.PPU.ReadStatus | nes/ppu.go:126-131 | returns the status byte of the old bit and clears the bit, nothing else |
| Ppu.PPU.WriteOAMAddress | nes/ppu.go:134-136 | sets the OAM cursor, nothing else |
| Ppu.PPU.ReadOAMData | nes/ppu.go:139-141 | returns the OAM entry under the cursor and changes nothing |
| Ppu.PPU.WriteOAMData | nes/ppu.go:144-147 | stores the byte at the old cursor, every other OAM entry unchanged, and moves the cursor to `(old + 1) mod 256` |
| Ppu.PPU.WriteScroll | nes/ppu.go:150-153 | shifts the byte into the scroll latch, nothing else |
| Ppu.PPU.WriteAddress | nes/ppu.go:156-159 | shifts the byte into the address latch, nothing else |
| Ppu.PPU.ReadData | nes/ppu.go:162-170 | returns memory at the old address and moves the address on by 1, or by 32 when the increment flag is set, modulo 65536 |
| Ppu.PPU.WriteData | nes/ppu.go:173-180 | stores the byte at the old address, every other address unchanged, and steps the address as a read does |
| Ppu.PPU.WriteDMA | nes/ppu.go:183-192 | leaves OAM as the OAMDMA image of the page from the starting cursor, and the cursor, after 256 increments, where it started |
| Ppu.PPU.Tick | nes/ppu.go:195-205 | advances the counters as `Sequencer.Tick`, nothing else |
| Ppu.PPU.Step | nes/ppu.go:208-216 | advances the counters and the bit as `Sequencer.Step`, nothing else, and keeps the invariant |
| Ppu.PowerOnStatusReads | nes/ppu.go:208-216 | after power-on and two clocks a status read returns $80, and a second read returns 0 |
| Ppu.OamReadBack | nes/ppu.go:134-147 | through the ports, OAMADDR c, OAMDATA v, OAMADDR c, then an OAMDATA read returns v |
| Ppu.AddressThenData | nes/ppu.go:156-170 | after PPUADDR $21 then $00, a PPUDATA read returns memory at $2100; the latch moves to $2101, or to $2120 with the increment flag set; memory is unchanged |

## Left out

- `log.Fatalf` in the default branches of `ReadRegister` and `WriteRegister` (nes/ppu.go:74, 98) stops the process. Here it is an `Err` result that changes nothing.
- The embedded `Memory` interface (`nes.PPUMemory`) is not part of this model. PPUDATA reads and writes a flat 64 KiB array, with no address decoding or mirroring, so the PPUDATA read-back (`Registers.DataWriteReadBack`, `Ppu.AddressThenData`) holds in this flat-memory model; behind the real collaborator it depends on how that maps the address.
- The `nes` back-reference and `cpu.Read` are not part of this model. The CPU's view of memory for OAMDMA is a pure function `cpuRead` passed to `WriteRegister`.
- Ppu.PPU.WriteDMA: the CPU stall noted as a TODO in the source is not implemented there, so no cycle cost is modelled.
- `paletteData` and `nametableData` are declared but never used in this file. The class has no fields for them.
- The fifteen flag fields of the Go struct are held as two records, `control` and `mask`. The values are the same.
- Sequencer.Tick: `Frame` is a `uint64` in the source but a `nat` here, so its wrap-around after 2^64 frames is not modelled.
- Sequencer.Tick: `Cycle` and `ScanLine` are Go `int`s, modelled as unbounded integers. Overflow cannot arise from the states `Reset` and `tick` reach.
- Shifts on bytes are modelled as integer halving (`Shr`) and `& m` as a remainder. Byte and `uint16` wrap-around is written out as `% 256` and `% 65536`.
