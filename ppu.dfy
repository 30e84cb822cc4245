// The NES picture processor (Ricoh 2C02) as the CPU sees it: a `PPU` object
// whose register ports ($2000-$2007 and $4014) decode control and mask
// bytes, expose the vertical-blank bit, give access to object attribute
// memory (OAM) and to the PPU address space, and whose `Step` advances the
// timing counters.
module Ppu {
  import opened PpuBits
  import opened Registers
  import Sequencer

  class PPU {
    /** The PPU address space behind PPUDATA: palette, nametables and what the
        cartridge maps there, seen as one flat store of 64 KiB. */
    const memory: array<u8>
    /** Object attribute memory: 256 bytes of sprite data. */
    const oamData: array<u8>

    var cycle: int     // 0-340
    var scanLine: int  // 0-261: 0-239 visible, 240 post-render, 241-260 vertical blank, 261 pre-render
    var frame: nat
    var verticalBlank: u8

    var control: Control  // $2000 PPUCTRL, as decoded flags
    var mask: Mask        // $2001 PPUMASK, as decoded flags
    var oamAddress: u8   // $2003 OAMADDR
    var scroll: u16      // $2005 PPUSCROLL
    var address: u16     // $2006 PPUADDR, the cursor of $2007 PPUDATA

    ghost function Clock(): Sequencer.Clock
      reads this`cycle, this`scanLine, this`frame
    {
      Sequencer.Clock(cycle, scanLine, frame)
    }

    ghost function Timing(): Sequencer.Timing
      reads this`cycle, this`scanLine, this`frame, this`verticalBlank
    {
      Sequencer.Timing(Clock(), verticalBlank)
    }

    ghost function Regs(): RegisterFile
      reads this
    {
      RegisterFile(control, mask, oamAddress, scroll, address, Timing())
    }

    /** The arrays have the sizes the source gives them. */
    ghost predicate Wired() {
      memory.Length == 0x10000 && oamData.Length == 256
    }

    /** The object invariant: the arrays have their sizes and the registers
        are consistent. */
    ghost predicate Valid()
      reads this
    {
      Wired() && Consistent(Regs())
    }

    /** `NewPPU`: zeroed registers and OAM, then `Reset`. */
    constructor (memory: array<u8>)
      requires memory.Length == 0x10000
      ensures Valid() && this.memory == memory && fresh(oamData)
      ensures Regs() == RegisterFile(DecodeControl(0), DecodeMask(0), 0, 0, 0, Sequencer.PowerOnTiming)
      ensures oamData[..] == seq(256, _ => 0)
    {
      this.memory := memory;
      oamData := new u8[256](_ => 0);
      scroll, address := 0, 0;
      new;
      Reset();
    }

    /** Power-on state: counters at (340, 240, 0), vertical blank clear,
        control, mask and OAM cursor zero. Scroll, address and the arrays are
        left as they are. */
    method Reset()
      requires Wired()
      modifies this
      ensures Valid()
      ensures Regs() == old(Regs()).(control := DecodeControl(0), mask := DecodeMask(0),
                                     oamAddress := 0, timing := Sequencer.PowerOnTiming)
    {
      cycle := 340;
      scanLine := 240;
      frame := 0;
      verticalBlank := 0;
      WriteControl(0);
      WriteMask(0);
      WriteOAMAddress(0);
    }

    /** A CPU read of a PPU port; any port but $2002, $2004 and $2007 is an
        error, which changes nothing. */
    method ReadRegister(port: u16) returns (r: Result<u8>)
      requires Valid()
      modifies this`verticalBlank, this`address
      ensures Valid()
      ensures r == ReadValue(old(Regs()), port, oamData[..], memory[..])
      ensures Regs() == AfterRead(old(Regs()), port)
    {
      match port
      case 0x2002 =>
        var value := ReadStatus();
        r := Ok(value);
      case 0x2004 =>
        var value := ReadOAMData();
        r := Ok(value);
      case 0x2007 =>
        var value := ReadData();
        r := Ok(value);
      case _ =>
        r := Err(UnhandledRead(port));
    }

    /** A CPU write to a PPU port; any port outside $2000-$2007 (except the
        read-only $2002) and $4014 is an error, which changes nothing.
        `cpuRead` is the CPU's view of memory, which only OAMDMA uses. */
    method WriteRegister(port: u16, value: u8, cpuRead: u16 -> u8) returns (r: Result<()>)
      requires Valid()
      modifies this, oamData, memory
      ensures Valid()
      ensures r.Ok? <==> Writable(port)
      ensures !Writable(port) ==> r == Err(UnhandledWrite(port))
      ensures Regs() == AfterWrite(old(Regs()), port, value)
      ensures oamData[..] == OamAfterWrite(old(oamData[..]), old(Regs()), port, value, cpuRead)
      ensures memory[..] == MemoryAfterWrite(old(memory[..]), old(Regs()), port, value)
    {
      r := Ok(());
      match port
      case 0x2000 => WriteControl(value);
      case 0x2001 => WriteMask(value);
      case 0x2003 => WriteOAMAddress(value);
      case 0x2004 => WriteOAMData(value);
      case 0x2005 => WriteScroll(value);
      case 0x2006 => WriteAddress(value);
      case 0x2007 => WriteData(value);
      case 0x4014 => WriteDMA(value, cpuRead);
      case _ => r := Err(UnhandledWrite(port));
    }

    /** $2000 PPUCTRL: every control flag is replaced by its bits of `value`. */
    method WriteControl(value: u8)
      modifies this`control
      ensures Regs() == old(Regs()).(control := DecodeControl(value))
    {
      control := DecodeControl(value);
    }

    /** $2001 PPUMASK: every mask flag is replaced by its bit of `value`. */
    method WriteMask(value: u8)
      modifies this`mask
      ensures Regs() == old(Regs()).(mask := DecodeMask(value))
    {
      mask := DecodeMask(value);
    }

    /** $2002 PPUSTATUS: report the vertical-blank bit in bit 7 and clear it. */
    method ReadStatus() returns (r: u8)
      modifies this`verticalBlank
      ensures r == StatusByte(old(verticalBlank))
      ensures Regs() == old(Regs()).(timing := old(Timing()).(verticalBlank := 0))
    {
      r := 0;
      r := r + verticalBlank % 2 * 128;  // `|= VerticalBlank << 7`
      verticalBlank := 0;
    }

    /** $2003 OAMADDR: move the OAM cursor. */
    method WriteOAMAddress(value: u8)
      modifies this`oamAddress
      ensures Regs() == old(Regs()).(oamAddress := value)
    {
      oamAddress := value;
    }

    /** $2004 OAMDATA read: the byte under the OAM cursor; nothing changes. */
    method ReadOAMData() returns (r: u8)
      requires Wired()
      ensures r == oamData[oamAddress]
    {
      r := oamData[oamAddress];
    }

    /** $2004 OAMDATA write: store at the cursor, then advance it, wrapping
        after 255. */
    method WriteOAMData(value: u8)
      requires Wired()
      modifies this`oamAddress, oamData
      ensures oamData[..] == old(oamData[..])[old(oamAddress) := value]
      ensures Regs() == old(Regs()).(oamAddress := (old(oamAddress) + 1) % 256)
    {
      oamData[oamAddress] := value;
      oamAddress := (oamAddress + 1) % 256;
    }

    /** $2005 PPUSCROLL: shift the byte into the scroll latch. */
    method WriteScroll(value: u8)
      modifies this`scroll
      ensures Regs() == old(Regs()).(scroll := ShiftIn(old(scroll), value))
    {
      scroll := ShiftIn(scroll, value);
    }

    /** $2006 PPUADDR: shift the byte into the address latch. */
    method WriteAddress(value: u8)
      modifies this`address
      ensures Regs() == old(Regs()).(address := ShiftIn(old(address), value))
    {
      address := ShiftIn(address, value);
    }

    /** $2007 PPUDATA read: the byte at the address latch, which then moves on
        by 1 or by 32 as PPUCTRL's increment flag says, wrapping at 16 bits. */
    method ReadData() returns (r: u8)
      requires Wired()
      modifies this`address
      ensures r == memory[old(address)]
      ensures Regs() == old(Regs()).(address := (old(address) + AddressStep(control.increment)) % 0x10000)
    {
      r := memory[address];
      if control.increment == 0 {
        address := (address + 1) % 0x10000;
      } else {
        address := (address + 32) % 0x10000;
      }
    }

    /** $2007 PPUDATA write: store at the address latch, which then moves on
        as for a read. */
    method WriteData(value: u8)
      requires Wired()
      modifies this`address, memory
      ensures memory[..] == old(memory[..])[old(address) := value]
      ensures Regs() == old(Regs()).(address := (old(address) + AddressStep(control.increment)) % 0x10000)
    {
      memory[address] := value;
      if control.increment == 0 {
        address := (address + 1) % 0x10000;
      } else {
        address := (address + 32) % 0x10000;
      }
    }

    /** $4014 OAMDMA: copy the CPU page `value` into OAM, starting at the OAM
        cursor and wrapping around; after 256 bytes the cursor is back where
        it started. */
    method WriteDMA(value: u8, cpuRead: u16 -> u8)
      requires Wired()
      modifies this`oamAddress, oamData
      ensures Regs() == old(Regs())
      ensures oamData[..] == DmaImage(old(oamAddress), value, cpuRead)
    {
      ghost var start := oamAddress;
      var source: u16 := value * 256;
      var i := 0;
      while i < 256
        invariant 0 <= i <= 256
        invariant i < 256 ==> source == PageBase(value) + i
        invariant oamAddress == OamSlot(start, i)
        invariant DmaCopied(oamData[..], start, value, cpuRead, i)
      {
        ghost var before := oamData[..];
        oamData[oamAddress] := cpuRead(source);
        DmaStep(before, oamData[..], start, value, cpuRead, i);
        oamAddress := (oamAddress + 1) % 256;
        source := (source + 1) % 0x10000;
        i := i + 1;
      }
      DmaImageFromSlots(oamData[..], start, value, cpuRead);
    }

    /** `tick`: advance the counters by one dot. */
    method Tick()
      modifies this`cycle, this`scanLine, this`frame
      ensures Regs() == old(Regs()).(timing := old(Timing()).(clock := Sequencer.Tick(old(Clock()))))
    {
      cycle := cycle + 1;
      if cycle > 340 {
        cycle := 0;
        scanLine := scanLine + 1;
        if scanLine > 261 {
          scanLine := 0;
          frame := frame + 1;
        }
      }
    }

    /** One PPU clock: tick, then raise the vertical-blank bit on landing on
        dot 1 of scanline 241 and lower it on dot 1 of scanline 261. */
    method Step()
      requires Valid()
      modifies this`cycle, this`scanLine, this`frame, this`verticalBlank
      ensures Valid()
      ensures Regs() == old(Regs()).(timing := Sequencer.Step(old(Timing())))
    {
      Tick();
      if scanLine == 241 && cycle == 1 {
        verticalBlank := 1;
      }
      if scanLine == 261 && cycle == 1 {
        verticalBlank := 0;
      }
      Sequencer.StepKeepsVBlankSound(old(Timing()));
    }
  }

  /** A CPU that reads zero everywhere, for sessions that never use OAMDMA. */
  function NoCpu(address: u16): u8 {
    0
  }

  /** After power-on and two clocks, a status read sees the vertical-blank
      bit, and a second read at once sees it cleared. */
  method PowerOnStatusReads() returns (first: Result<u8>, second: Result<u8>)
    ensures first == Ok(0x80) && second == Ok(0)
  {
    var memory := new u8[0x10000];
    var ppu := new PPU(memory);
    ppu.Step();
    ppu.Step();
    Sequencer.PowerOnTwoSteps();
    assert ppu.Timing() == Sequencer.Run(Sequencer.PowerOnTiming, 2);
    first := ppu.ReadRegister(0x2002);
    second := ppu.ReadRegister(0x2002);
  }

  /** A byte written through OAMDATA at cursor c reads back after OAMADDR is
      set to c again. */
  method OamReadBack(cursor: u8, value: u8) returns (r: Result<u8>)
    ensures r == Ok(value)
  {
    var memory := new u8[0x10000];
    var ppu := new PPU(memory);
    var ok := ppu.WriteRegister(0x2003, cursor, NoCpu);
    ok := ppu.WriteRegister(0x2004, value, NoCpu);
    ok := ppu.WriteRegister(0x2003, cursor, NoCpu);
    r := ppu.ReadRegister(0x2004);
  }

  /** PPUADDR written with $21 then $00 makes PPUDATA read address $2100 and
      move the cursor to $2101, or to $2120 when PPUCTRL selects steps of 32. */
  method AddressThenData(memory: array<u8>, stepBy32: bool) returns (r: Result<u8>, next: u16)
    requires memory.Length == 0x10000
    modifies memory
    ensures memory[..] == old(memory[..])
    ensures r == Ok(memory[0x2100])
    ensures next == if stepBy32 then 0x2120 else 0x2101
  {
    var ppu := new PPU(memory);
    var ok := ppu.WriteRegister(0x2000, if stepBy32 then 0x04 else 0x00, NoCpu);
    assert ppu.control.increment == if stepBy32 then 1 else 0;
    ok := ppu.WriteRegister(0x2006, 0x21, NoCpu);
    ok := ppu.WriteRegister(0x2006, 0x00, NoCpu);
    assert ppu.address == 0x2100;
    r := ppu.ReadRegister(0x2007);
    next := ppu.address;
  }
}
