// Bit-level encodings of the register file of the NES picture processor
// (Ricoh 2C02): how a byte written to the control or mask port splits into
// flags, what the status port reads as, how the scroll and address ports
// assemble a 16-bit value from successive bytes, and how the data port steps
// its address. Go's `byte` and `uint16` are integers in range; a shift and
// mask `(v >> k) & m` of an unsigned byte is written `Shr(v, k) % (m + 1)`,
// and wrap-around is written out as `% 0x100` and `% 0x10000`.
module PpuBits {

  /** Go's `uint16`: the scroll latch, the address latch and CPU addresses. */
  type u16 = x: int | 0 <= x < 0x10000

  /** Go's `byte`: register values, flags, memory contents, the OAM cursor. */
  type u8 = x: int | 0 <= x < 0x100

  /** Flags decoded from a byte written to PPUCTRL ($2000). */
  datatype Control = Control(
    nametable: u8,        // bits 0-1: 0 = $2000, 1 = $2400, 2 = $2800, 3 = $2C00
    increment: u8,        // bit 2: data port steps by 1 (0) or by 32 (1)
    spriteTable: u8,      // bit 3: sprite pattern table at $0000 or $1000
    backgroundTable: u8,  // bit 4: background pattern table at $0000 or $1000
    spriteSize: u8,       // bit 5: 8x8 or 8x16 sprites
    masterSlave: u8,      // bit 6: read or write EXT
    generateNMI: u8)      // bit 7: interrupt at the start of vertical blank

  /** Flags decoded from a byte written to PPUMASK ($2001), one bit each. */
  datatype Mask = Mask(
    grayscale: u8,           // bit 0
    showLeftBackground: u8,  // bit 1
    showLeftSprites: u8,     // bit 2
    showBackground: u8,      // bit 3
    showSprites: u8,         // bit 4
    redTint: u8,             // bit 5
    greenTint: u8,           // bit 6
    blueTint: u8)            // bit 7

  /** Every field is in range: a two-bit nametable selector and one-bit flags. */
  predicate ControlInRange(c: Control) {
    c.nametable < 4 && c.increment < 2 && c.spriteTable < 2 &&
    c.backgroundTable < 2 && c.spriteSize < 2 && c.masterSlave < 2 &&
    c.generateNMI < 2
  }

  predicate MaskInRange(m: Mask) {
    m.grayscale < 2 && m.showLeftBackground < 2 && m.showLeftSprites < 2 &&
    m.showBackground < 2 && m.showSprites < 2 && m.redTint < 2 &&
    m.greenTint < 2 && m.blueTint < 2
  }

  /** The control byte that a set of control flags stands for. */
  function EncodeControl(c: Control): int {
    c.nametable + 4 * c.increment + 8 * c.spriteTable + 16 * c.backgroundTable +
    32 * c.spriteSize + 64 * c.masterSlave + 128 * c.generateNMI
  }

  /** The mask byte that a set of mask flags stands for. */
  function EncodeMask(m: Mask): int {
    m.grayscale + 2 * m.showLeftBackground + 4 * m.showLeftSprites +
    8 * m.showBackground + 16 * m.showSprites + 32 * m.redTint +
    64 * m.greenTint + 128 * m.blueTint
  }

  /** `value >> k` on an unsigned byte. */
  function Shr(value: u8, k: nat): u8 {
    if k == 0 then value else Shr(value / 2, k - 1)
  }

  /** The writeControl decoding: bits 0-1 (`& 3`), then bits 2 to 7 (`& 1`). */
  function DecodeControl(value: u8): Control {
    Control(Shr(value, 0) % 4, Shr(value, 2) % 2, Shr(value, 3) % 2, Shr(value, 4) % 2,
            Shr(value, 5) % 2, Shr(value, 6) % 2, Shr(value, 7) % 2)
  }

  /** The writeMask decoding: bits 0 to 7, one each. */
  function DecodeMask(value: u8): Mask {
    Mask(Shr(value, 0) % 2, Shr(value, 1) % 2, Shr(value, 2) % 2, Shr(value, 3) % 2,
         Shr(value, 4) % 2, Shr(value, 5) % 2, Shr(value, 6) % 2, Shr(value, 7) % 2)
  }

  /** One more shift is one more halving. */
  lemma {:induction false} ShrSucc(value: u8, k: nat)
    ensures Shr(value, k + 1) == Shr(value, k) / 2
    decreases k
  {
    if k > 0 {
      ShrSucc(value / 2, k - 1);
    }
  }

  /** The bytes shifted right by 0 to 7 places, each half the one before. */
  lemma {:induction false} ShrChain(value: u8)
    ensures Shr(value, 0) == value
    ensures Shr(value, 1) == Shr(value, 0) / 2 && Shr(value, 2) == Shr(value, 1) / 2
    ensures Shr(value, 3) == Shr(value, 2) / 2 && Shr(value, 4) == Shr(value, 3) / 2
    ensures Shr(value, 5) == Shr(value, 4) / 2 && Shr(value, 6) == Shr(value, 5) / 2
    ensures Shr(value, 7) == Shr(value, 6) / 2
  {
    ShrSucc(value, 0);
    ShrSucc(value, 1);
    ShrSucc(value, 2);
    ShrSucc(value, 3);
    ShrSucc(value, 4);
    ShrSucc(value, 5);
    ShrSucc(value, 6);
  }

  /** A byte is the sum of its eight binary digits. */
  lemma {:induction false} BinaryDigits(value: u8)
    ensures value == Shr(value, 0) % 2 + 2 * (Shr(value, 1) % 2) + 4 * (Shr(value, 2) % 2) +
                     8 * (Shr(value, 3) % 2) + 16 * (Shr(value, 4) % 2) +
                     32 * (Shr(value, 5) % 2) + 64 * (Shr(value, 6) % 2) +
                     128 * (Shr(value, 7) % 2)
  {
    ShrChain(value);
  }

  /** The control flags are a complete, lossless decomposition of the byte
      written: they are in range and encode back to it. */
  lemma {:induction false} DecodeControlLossless(value: u8)
    ensures ControlInRange(DecodeControl(value))
    ensures EncodeControl(DecodeControl(value)) == value
  {
    BinaryDigits(value);
    ShrChain(value);
    LowTwoBits(value);
  }

  /** `x & 3` is bit 0 plus twice bit 1. */
  lemma LowTwoBits(x: u8)
    ensures x % 4 == x % 2 + 2 * (x / 2 % 2)
  {
  }

  /** The mask flags are a complete, lossless decomposition of the byte
      written. */
  lemma {:induction false} DecodeMaskLossless(value: u8)
    ensures MaskInRange(DecodeMask(value))
    ensures EncodeMask(DecodeMask(value)) == value
  {
    BinaryDigits(value);
  }

  /** The shifts are divisions by powers of two: `value >> k` is
      `value / 2^k` for k = 1 to 7. */
  lemma {:induction false} ShrByPowers(value: u8)
    ensures Shr(value, 1) == value / 2 && Shr(value, 2) == value / 4
    ensures Shr(value, 3) == value / 8 && Shr(value, 4) == value / 16
    ensures Shr(value, 5) == value / 32 && Shr(value, 6) == value / 64
    ensures Shr(value, 7) == value / 128
  {
    ShrChain(value);
  }

  /** Each control flag is its bit field of the byte written: the nametable
      selector `value & 3`, then bit k of `value` for k = 2 to 7. */
  lemma {:induction false} DecodeControlBits(value: u8)
    ensures DecodeControl(value) ==
      Control(value % 4, value / 4 % 2, value / 8 % 2, value / 16 % 2,
              value / 32 % 2, value / 64 % 2, value / 128)
  {
    ShrChain(value);
    ShrByPowers(value);
  }

  /** Each mask flag is bit k of the byte written, for k = 0 to 7. */
  lemma {:induction false} DecodeMaskBits(value: u8)
    ensures DecodeMask(value) ==
      Mask(value % 2, value / 2 % 2, value / 4 % 2, value / 8 % 2,
           value / 16 % 2, value / 32 % 2, value / 64 % 2, value / 128)
  {
    ShrChain(value);
    ShrByPowers(value);
  }

  /** A number written as a low digit plus a multiple of the base has one
      such decomposition. */
  lemma PeelDigit(base: int, a: int, ra: int, b: int, rb: int)
    requires base == 2 || base == 4
    requires 0 <= a < base && 0 <= b < base && a + base * ra == b + base * rb
    ensures a == b && ra == rb
  {
  }

  /** Different in-range control flags encode to different bytes. */
  lemma {:induction false} EncodeControlInjective(a: Control, b: Control)
    requires ControlInRange(a) && ControlInRange(b) && EncodeControl(a) == EncodeControl(b)
    ensures a == b
  {
    var a6, b6 := a.masterSlave + 2 * a.generateNMI, b.masterSlave + 2 * b.generateNMI;
    var a5, b5 := a.spriteSize + 2 * a6, b.spriteSize + 2 * b6;
    var a4, b4 := a.backgroundTable + 2 * a5, b.backgroundTable + 2 * b5;
    var a3, b3 := a.spriteTable + 2 * a4, b.spriteTable + 2 * b4;
    var a2, b2 := a.increment + 2 * a3, b.increment + 2 * b3;
    PeelDigit(4, a.nametable, a2, b.nametable, b2);
    PeelDigit(2, a.increment, a3, b.increment, b3);
    PeelDigit(2, a.spriteTable, a4, b.spriteTable, b4);
    PeelDigit(2, a.backgroundTable, a5, b.backgroundTable, b5);
    PeelDigit(2, a.spriteSize, a6, b.spriteSize, b6);
    PeelDigit(2, a.masterSlave, a.generateNMI, b.masterSlave, b.generateNMI);
  }

  /** Different in-range mask flags encode to different bytes. */
  lemma {:induction false} EncodeMaskInjective(a: Mask, b: Mask)
    requires MaskInRange(a) && MaskInRange(b) && EncodeMask(a) == EncodeMask(b)
    ensures a == b
  {
    var a6, b6 := a.greenTint + 2 * a.blueTint, b.greenTint + 2 * b.blueTint;
    var a5, b5 := a.redTint + 2 * a6, b.redTint + 2 * b6;
    var a4, b4 := a.showSprites + 2 * a5, b.showSprites + 2 * b5;
    var a3, b3 := a.showBackground + 2 * a4, b.showBackground + 2 * b4;
    var a2, b2 := a.showLeftSprites + 2 * a3, b.showLeftSprites + 2 * b3;
    var a1, b1 := a.showLeftBackground + 2 * a2, b.showLeftBackground + 2 * b2;
    PeelDigit(2, a.grayscale, a1, b.grayscale, b1);
    PeelDigit(2, a.showLeftBackground, a2, b.showLeftBackground, b2);
    PeelDigit(2, a.showLeftSprites, a3, b.showLeftSprites, b3);
    PeelDigit(2, a.showBackground, a4, b.showBackground, b4);
    PeelDigit(2, a.showSprites, a5, b.showSprites, b5);
    PeelDigit(2, a.redTint, a6, b.redTint, b6);
    PeelDigit(2, a.greenTint, a.blueTint, b.greenTint, b.blueTint);
  }

  /** Every in-range set of control flags is reached by writing one byte,
      the byte it encodes to. */
  lemma {:induction false} EncodeDecodeControl(c: Control)
    requires ControlInRange(c)
    ensures 0 <= EncodeControl(c) < 0x100
    ensures DecodeControl(EncodeControl(c)) == c
  {
    var v := EncodeControl(c);
    DecodeControlLossless(v);
    EncodeControlInjective(DecodeControl(v), c);
  }

  /** Every in-range set of mask flags is reached by writing one byte. */
  lemma {:induction false} EncodeDecodeMask(m: Mask)
    requires MaskInRange(m)
    ensures 0 <= EncodeMask(m) < 0x100
    ensures DecodeMask(EncodeMask(m)) == m
  {
    var v := EncodeMask(m);
    DecodeMaskLossless(v);
    EncodeMaskInjective(DecodeMask(v), m);
  }

  /** Two different control bytes never give the same flags: no bit of a
      write is lost, and none survives from an earlier write. */
  lemma {:induction false} DecodeControlInjective(a: u8, b: u8)
    requires DecodeControl(a) == DecodeControl(b)
    ensures a == b
  {
    DecodeControlLossless(a);
    DecodeControlLossless(b);
  }

  lemma {:induction false} DecodeMaskInjective(a: u8, b: u8)
    requires DecodeMask(a) == DecodeMask(b)
    ensures a == b
  {
    DecodeMaskLossless(a);
    DecodeMaskLossless(b);
  }

  /** The byte read from PPUSTATUS ($2002): bit 7 is the low bit of the
      vertical-blank byte, every other bit reads as 0. */
  function StatusByte(verticalBlank: u8): (r: u8)
    ensures r % 128 == 0 && r / 128 == verticalBlank % 2
  {
    verticalBlank % 2 * 128  // `|= verticalBlank << 7` into a zero byte
  }

  /** The scroll and address latches: the new byte becomes the low byte and
      the previous low byte moves up, the previous high byte is discarded. */
  function ShiftIn(latch: u16, value: u8): (r: u16)
    ensures r % 256 == value
    ensures r / 256 == latch % 256
  {
    var shifted := latch * 256 % 0x10000;  // `<<= 8` on a uint16
    shifted + value                        // `|=` into the cleared low byte
  }

  /** Two writes, high byte then low byte, set the latch to exactly that
      16-bit value whatever it held before. */
  lemma LatchTwoWrites(latch: u16, hi: u8, lo: u8)
    ensures ShiftIn(ShiftIn(latch, hi), lo) == hi * 256 + lo
  {
  }

  /** How far the data port moves its address after an access. */
  function AddressStep(flagIncrement: u8): int {
    if flagIncrement == 0 then 1 else 32
  }

  /** The OAM entry `i` places after the cursor `start`, wrapping after 255. */
  function OamSlot(start: u8, i: int): u8 {
    (start + i) % 256
  }

  /** Distinct offsets below 256 from one cursor reach distinct OAM entries. */
  lemma OamSlotsDistinct(start: u8, i: int)
    requires 0 <= i < 256
    ensures forall k :: 0 <= k < i ==> OamSlot(start, k) != OamSlot(start, i)
  {
  }

  /** Every OAM entry is some offset below 256 from a cursor. */
  lemma OamSlotOffset(start: u8, j: u8)
    ensures 0 <= (j - start) % 256 < 256 && OamSlot(start, (j - start) % 256) == j
  {
    if start <= j {
      assert (j - start) % 256 == j - start;
    } else {
      assert (j - start) % 256 == j - start + 256;
    }
  }

  /** The first CPU address of the 256-byte page that OAMDMA ($4014) copies. */
  function PageBase(page: u8): (r: u16)
    ensures r % 256 == 0 && r / 256 == page
  {
    page * 256
  }
}
