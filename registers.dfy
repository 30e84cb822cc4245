// The register file of the NES picture processor as a value, and what each
// CPU access to one of its ports does to it: which byte a read returns, how
// the registers, the object attribute memory (OAM) and the PPU address space
// change. The `PPU` class is proved against these functions; the lemmas here
// are the properties the port protocol promises.
module Registers {
  import opened PpuBits
  import Sequencer

  /** The register file's one error: an access to a port it does not
      implement. The source stops the whole emulator at that point. */
  datatype PortError = UnhandledRead(port: u16) | UnhandledWrite(port: u16)

  datatype Result<T> = Ok(value: T) | Err(error: PortError)

  /** PPUSTATUS, OAMDATA and PPUDATA. */
  predicate Readable(port: u16) {
    port == 0x2002 || port == 0x2004 || port == 0x2007
  }

  /** PPUCTRL, PPUMASK, OAMADDR, OAMDATA, PPUSCROLL, PPUADDR, PPUDATA and OAMDMA. */
  predicate Writable(port: u16) {
    (0x2000 <= port <= 0x2007 && port != 0x2002) || port == 0x4014
  }

  /** Every register of the PPU, the two memories aside. */
  datatype RegisterFile = RegisterFile(
    control: Control,
    mask: Mask,
    oamAddress: u8,
    scroll: u16,
    address: u16,
    timing: Sequencer.Timing)

  /** What the registers keep between accesses: the flags are bits (the
      nametable selector two bits), the counters are in range and the
      vertical-blank bit is set only inside the vertical-blank window. */
  predicate Consistent(rf: RegisterFile) {
    ControlInRange(rf.control) && MaskInRange(rf.mask) && Sequencer.VBlankSound(rf.timing)
  }

  /** The byte a CPU read of `port` returns. */
  function ReadValue(rf: RegisterFile, port: u16, oam: seq<u8>, memory: seq<u8>): (r: Result<u8>)
    requires |oam| == 256 && |memory| == 0x10000
    ensures r.Ok? <==> Readable(port)
    ensures !Readable(port) ==> r == Err(UnhandledRead(port))
  {
    match port
    case 0x2002 => Ok(StatusByte(rf.timing.verticalBlank))
    case 0x2004 => Ok(oam[rf.oamAddress])
    case 0x2007 => Ok(memory[rf.address])
    case _ => Err(UnhandledRead(port))
  }

  /** The registers after a CPU read of `port`: a status read clears the
      vertical-blank bit, a data read moves the address latch on. */
  function AfterRead(rf: RegisterFile, port: u16): RegisterFile {
    match port
    case 0x2002 => rf.(timing := rf.timing.(verticalBlank := 0))
    case 0x2007 => rf.(address := (rf.address + AddressStep(rf.control.increment)) % 0x10000)
    case _ => rf
  }

  /** The registers after the CPU writes `value` to `port`. OAMDMA leaves
      them as they were: its cursor goes round all 256 entries. */
  function AfterWrite(rf: RegisterFile, port: u16, value: u8): RegisterFile {
    match port
    case 0x2000 => rf.(control := DecodeControl(value))
    case 0x2001 => rf.(mask := DecodeMask(value))
    case 0x2003 => rf.(oamAddress := value)
    case 0x2004 => rf.(oamAddress := (rf.oamAddress + 1) % 256)
    case 0x2005 => rf.(scroll := ShiftIn(rf.scroll, value))
    case 0x2006 => rf.(address := ShiftIn(rf.address, value))
    case 0x2007 => rf.(address := (rf.address + AddressStep(rf.control.increment)) % 0x10000)
    case _ => rf
  }

  /** OAM after an OAMDMA from CPU page `page`, with the cursor at `start`:
      entry `j` holds the byte `(j - start) mod 256` places into the page. */
  function DmaImage(start: u8, page: u8, cpuRead: u16 -> u8): (r: seq<u8>)
    ensures |r| == 256
  {
    seq(256, j => DmaByte(start, page, cpuRead, j))
  }

  /** The byte OAMDMA leaves in entry `j`. */
  function DmaByte(start: u8, page: u8, cpuRead: u16 -> u8, j: int): u8 {
    cpuRead(PageBase(page) + (j - start) % 256)
  }

  /** OAM after the CPU writes `value` to `port`. */
  function OamAfterWrite(oam: seq<u8>, rf: RegisterFile, port: u16, value: u8,
                         cpuRead: u16 -> u8): (r: seq<u8>)
    requires |oam| == 256
    ensures |r| == 256
    ensures port != 0x2004 && port != 0x4014 ==> r == oam
  {
    match port
    case 0x2004 => oam[rf.oamAddress := value]
    case 0x4014 => DmaImage(rf.oamAddress, value, cpuRead)
    case _ => oam
  }

  /** The PPU address space after the CPU writes `value` to `port`. */
  function MemoryAfterWrite(memory: seq<u8>, rf: RegisterFile, port: u16, value: u8): (r: seq<u8>)
    requires |memory| == 0x10000
    ensures |r| == 0x10000
    ensures port != 0x2007 ==> r == memory
  {
    if port == 0x2007 then memory[rf.address := value] else memory
  }

  /** OAMDMA copies the whole page: the `i`-th byte of the page lands `i`
      entries after the cursor, wrapping after entry 255. */
  lemma {:induction false} DmaImageAt(start: u8, page: u8, cpuRead: u16 -> u8, i: int)
    requires 0 <= i < 256
    ensures DmaImage(start, page, cpuRead)[OamSlot(start, i)] == cpuRead(PageBase(page) + i)
  {
    OamSlotOffset(start, OamSlot(start, i));
    assert OamSlot(start, i) == start + i || OamSlot(start, i) == start + i - 256;
  }

  /** The first `n` bytes of the page are in place: the `i`-th byte of the
      page sits `i` entries after the cursor. */
  ghost predicate DmaCopied(oam: seq<u8>, start: u8, page: u8, cpuRead: u16 -> u8, n: int)
    requires |oam| == 256 && n <= 256
  {
    forall i :: 0 <= i < n ==> oam[OamSlot(start, i)] == cpuRead(PageBase(page) + i)
  }

  /** Copying byte `n` of the page to entry `n` after the cursor keeps the
      bytes already copied and adds that one. */
  lemma {:induction false} DmaStep(before: seq<u8>, after: seq<u8>, start: u8, page: u8,
                                   cpuRead: u16 -> u8, n: int)
    requires |before| == 256 && 0 <= n < 256
    requires DmaCopied(before, start, page, cpuRead, n)
    requires after == before[OamSlot(start, n) := cpuRead(PageBase(page) + n)]
    ensures DmaCopied(after, start, page, cpuRead, n + 1)
  {
    OamSlotsDistinct(start, n);
  }

  /** An OAM image that holds the `i`-th byte of the page `i` entries after
      the cursor, for every `i` below 256, is the OAMDMA image. */
  lemma {:induction false} DmaImageFromSlots(oam: seq<u8>, start: u8, page: u8, cpuRead: u16 -> u8)
    requires |oam| == 256 && DmaCopied(oam, start, page, cpuRead, 256)
    ensures oam == DmaImage(start, page, cpuRead)
  {
    forall j | 0 <= j < 256
      ensures oam[j] == DmaImage(start, page, cpuRead)[j]
    {
      OamSlotOffset(start, j);
    }
  }

  /** No register write touches the timing state: only `Step` and a status
      read change the vertical-blank bit. */
  lemma WriteKeepsTiming(rf: RegisterFile, port: u16, value: u8)
    ensures AfterWrite(rf, port, value).timing == rf.timing
  {
  }

  /** Every write keeps the registers consistent. */
  lemma WriteKeepsConsistent(rf: RegisterFile, port: u16, value: u8)
    requires Consistent(rf)
    ensures Consistent(AfterWrite(rf, port, value))
  {
  }

  /** No register read touches the counters: the frame counter goes on
      counting whole frames whatever the CPU reads in between. */
  lemma ReadKeepsClock(rf: RegisterFile, port: u16)
    ensures AfterRead(rf, port).timing.clock == rf.timing.clock
  {
  }

  /** The registers after `n` OAMDATA writes in a row, all of `value`. */
  function OamWrites(rf: RegisterFile, value: u8, n: nat): RegisterFile
    decreases n
  {
    if n == 0 then rf else OamWrites(AfterWrite(rf, 0x2004, value), value, n - 1)
  }

  /** After `n` OAMDATA writes the cursor has moved on by `n`, wrapping
      after entry 255, and nothing else has changed. */
  lemma {:induction false} OamWritesAdvanceCursor(rf: RegisterFile, value: u8, n: nat)
    ensures OamWrites(rf, value, n) == rf.(oamAddress := (rf.oamAddress + n) % 256)
    decreases n
  {
    if n > 0 {
      var rf1 := AfterWrite(rf, 0x2004, value);
      OamWritesAdvanceCursor(rf1, value, n - 1);
      assert (rf1.oamAddress + (n - 1)) % 256 == (rf.oamAddress + n) % 256;
    }
  }

  /** Every read keeps the registers consistent. */
  lemma ReadKeepsConsistent(rf: RegisterFile, port: u16)
    requires Consistent(rf)
    ensures Consistent(AfterRead(rf, port))
  {
  }

  /** An access to an unimplemented port changes nothing. */
  lemma UnhandledWriteChangesNothing(rf: RegisterFile, port: u16, value: u8,
                                     oam: seq<u8>, memory: seq<u8>, cpuRead: u16 -> u8)
    requires |oam| == 256 && |memory| == 0x10000 && !Writable(port)
    ensures AfterWrite(rf, port, value) == rf
    ensures OamAfterWrite(oam, rf, port, value, cpuRead) == oam
    ensures MemoryAfterWrite(memory, rf, port, value) == memory
  {
  }

  /** A PPUCTRL write replaces all control flags: of two writes in a row
      only the second has any effect. */
  lemma ControlLastWriteWins(rf: RegisterFile, a: u8, b: u8)
    ensures AfterWrite(AfterWrite(rf, 0x2000, a), 0x2000, b) == AfterWrite(rf, 0x2000, b)
  {
  }

  /** The same for PPUMASK. */
  lemma MaskLastWriteWins(rf: RegisterFile, a: u8, b: u8)
    ensures AfterWrite(AfterWrite(rf, 0x2001, a), 0x2001, b) == AfterWrite(rf, 0x2001, b)
  {
  }

  /** Two PPUADDR writes, high byte then low byte, set the address latch to
      that 16-bit address, whatever it held before. */
  lemma {:induction false} AddressTwoWrites(rf: RegisterFile, hi: u8, lo: u8)
    ensures AfterWrite(AfterWrite(rf, 0x2006, hi), 0x2006, lo).address == hi * 256 + lo
  {
    LatchTwoWrites(rf.address, hi, lo);
  }

  /** Two PPUSCROLL writes likewise set the scroll latch. */
  lemma {:induction false} ScrollTwoWrites(rf: RegisterFile, hi: u8, lo: u8)
    ensures AfterWrite(AfterWrite(rf, 0x2005, hi), 0x2005, lo).scroll == hi * 256 + lo
  {
    LatchTwoWrites(rf.scroll, hi, lo);
  }

  /** A status read reports the vertical-blank bit in bit 7; a second read
      straight after it reports the bit cleared. */
  lemma StatusReadClears(rf: RegisterFile, oam: seq<u8>, memory: seq<u8>)
    requires |oam| == 256 && |memory| == 0x10000
    ensures ReadValue(rf, 0x2002, oam, memory) == Ok(StatusByte(rf.timing.verticalBlank))
    ensures ReadValue(AfterRead(rf, 0x2002), 0x2002, oam, memory) == Ok(0)
  {
  }

  /** A byte written through OAMDATA reads back once OAMADDR is set to the
      same entry again. */
  lemma OamWriteReadBack(rf: RegisterFile, oam: seq<u8>, memory: seq<u8>,
                         cursor: u8, value: u8, cpuRead: u16 -> u8)
    requires |oam| == 256 && |memory| == 0x10000
    ensures
      var rf1 := AfterWrite(rf, 0x2003, cursor);
      var oam2 := OamAfterWrite(oam, rf1, 0x2004, value, cpuRead);
      var rf3 := AfterWrite(AfterWrite(rf1, 0x2004, value), 0x2003, cursor);
      ReadValue(rf3, 0x2004, oam2, memory) == Ok(value)
  {
  }

  /** A byte written through PPUDATA at the address set by two PPUADDR
      writes reads back after the same two PPUADDR writes. */
  lemma {:induction false} DataWriteReadBack(rf: RegisterFile, oam: seq<u8>, memory: seq<u8>,
                                             hi: u8, lo: u8, value: u8)
    requires |oam| == 256 && |memory| == 0x10000
    ensures
      var rf2 := AfterWrite(AfterWrite(rf, 0x2006, hi), 0x2006, lo);
      var memory3 := MemoryAfterWrite(memory, rf2, 0x2007, value);
      var rf5 := AfterWrite(AfterWrite(AfterWrite(rf2, 0x2007, value), 0x2006, hi), 0x2006, lo);
      ReadValue(rf5, 0x2007, oam, memory3) == Ok(value)
  {
    var rf2 := AfterWrite(AfterWrite(rf, 0x2006, hi), 0x2006, lo);
    AddressTwoWrites(rf, hi, lo);
    AddressTwoWrites(AfterWrite(rf2, 0x2007, value), hi, lo);
  }
}
