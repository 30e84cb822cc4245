// The timing sequencer of the NES picture processor: the (Cycle, ScanLine,
// Frame) counters that `tick` advances once per PPU clock, and the
// vertical-blank bit that `Step` raises on entering scanline 241 and lowers
// on entering the pre-render scanline 261.
module Sequencer {
  import opened PpuBits

  /** Dots per scanline (0..340), scanlines per frame (0..261), and their product. */
  const DotsPerLine := 341
  const LinesPerFrame := 262
  const TicksPerFrame := DotsPerLine * LinesPerFrame

  /** The three counters. Go's `Frame` is a `uint64`; here it is unbounded. */
  datatype Clock = Clock(cycle: int, scanLine: int, frame: nat)

  predicate InRange(c: Clock) {
    0 <= c.cycle < DotsPerLine && 0 <= c.scanLine < LinesPerFrame
  }

  /** The point `Reset` sets: the next tick is dot 0 of scanline 241. */
  const PowerOn := Clock(340, 240, 0)

  /** The number of ticks from dot 0 of scanline 0 of frame 0 up to `c`:
      the counters read as one mixed-radix number. */
  function Position(c: Clock): int {
    c.frame * TicksPerFrame + c.scanLine * DotsPerLine + c.cycle
  }

  /** `tick`: advance the dot, carrying into the scanline past dot 340 and
      into the frame past scanline 261. */
  function Tick(c: Clock): (r: Clock)
    ensures InRange(c) ==> InRange(r) && Position(r) == Position(c) + 1
    ensures InRange(c) ==>
      r.frame == if c.cycle == 340 && c.scanLine == 261 then c.frame + 1 else c.frame
  {
    var cycle := c.cycle + 1;
    if cycle > 340 then
      var scanLine := c.scanLine + 1;
      if scanLine > 261 then Clock(0, 0, c.frame + 1) else Clock(0, scanLine, c.frame)
    else
      Clock(cycle, c.scanLine, c.frame)
  }

  /** `n` ticks in a row. */
  function TickN(c: Clock, n: nat): Clock
    decreases n
  {
    if n == 0 then c else TickN(Tick(c), n - 1)
  }

  lemma {:induction false} TickNAdvancesPosition(c: Clock, n: nat)
    requires InRange(c)
    ensures InRange(TickN(c, n)) && Position(TickN(c, n)) == Position(c) + n
    decreases n
  {
    if n > 0 {
      TickNAdvancesPosition(Tick(c), n - 1);
    }
  }

  /** The counters in range are determined by their position. */
  lemma PositionDeterminesClock(a: Clock, b: Clock)
    requires InRange(a) && InRange(b) && Position(a) == Position(b)
    ensures a == b
  {
  }

  /** The frame counter is the number of whole frames in the position. */
  lemma FrameIsWholeFrames(c: Clock)
    requires InRange(c)
    ensures c.frame == Position(c) / TicksPerFrame
  {
  }

  /** Exactly k x 341 x 262 ticks take the counters to the same dot and
      scanline k frames later: the frame counter goes up once per 341 x 262
      ticks. */
  lemma FramePeriod(c: Clock, k: nat)
    requires InRange(c)
    ensures TickN(c, k * TicksPerFrame) == c.(frame := c.frame + k)
  {
    TickNAdvancesPosition(c, k * TicksPerFrame);
    PositionDeterminesClock(TickN(c, k * TicksPerFrame), c.(frame := c.frame + k));
  }

  /** After `n` ticks the frame counter has counted every wrap past
      (340, 261): it is the number of whole frames in the new position. */
  lemma FramesAfter(c: Clock, n: nat)
    requires InRange(c)
    ensures TickN(c, n).frame == (Position(c) + n) / TicksPerFrame
  {
    TickNAdvancesPosition(c, n);
    FrameIsWholeFrames(TickN(c, n));
  }

  /** The dots where `Step` leaves the vertical-blank bit set: scanline 241
      from dot 1, scanlines 242 to 260, and dot 0 of scanline 261. */
  predicate InVBlank(c: Clock) {
    (c.scanLine == 241 && c.cycle >= 1) || (242 <= c.scanLine <= 260) ||
    (c.scanLine == 261 && c.cycle == 0)
  }

  /** The counters together with the vertical-blank bit they drive. */
  datatype Timing = Timing(clock: Clock, verticalBlank: u8)

  /** `Step`: tick, then set the bit on landing on (241, 1) and clear it on
      landing on (261, 1). */
  function Step(t: Timing): (r: Timing)
    ensures r.clock == Tick(t.clock)
    ensures r.clock.scanLine == 241 && r.clock.cycle == 1 ==> r.verticalBlank == 1
    ensures r.clock.scanLine == 261 && r.clock.cycle == 1 ==> r.verticalBlank == 0
    ensures r.verticalBlank != t.verticalBlank ==>
      r.clock.cycle == 1 && (r.clock.scanLine == 241 || r.clock.scanLine == 261)
  {
    var clock := Tick(t.clock);
    var verticalBlank := if clock.scanLine == 241 && clock.cycle == 1 then 1 else t.verticalBlank;
    Timing(clock, if clock.scanLine == 261 && clock.cycle == 1 then 0 else verticalBlank)
  }

  /** `n` steps in a row, with no status read in between. */
  function Run(t: Timing, n: nat): Timing
    decreases n
  {
    if n == 0 then t else Run(Step(t), n - 1)
  }

  /** The bit is exactly "inside the vertical-blank window": what holds when
      steps are not interleaved with status reads. */
  predicate VBlankExact(t: Timing) {
    InRange(t.clock) && t.verticalBlank == if InVBlank(t.clock) then 1 else 0
  }

  /** The bit is 0 or 1 and never 1 outside the window: what holds under any
      interleaving of steps with status reads, which clear the bit. */
  predicate VBlankSound(t: Timing) {
    InRange(t.clock) && t.verticalBlank <= 1 && (t.verticalBlank == 1 ==> InVBlank(t.clock))
  }

  lemma StepKeepsVBlankExact(t: Timing)
    requires VBlankExact(t)
    ensures VBlankExact(Step(t))
  {
  }

  lemma StepKeepsVBlankSound(t: Timing)
    requires VBlankSound(t)
    ensures VBlankSound(Step(t))
  {
  }

  lemma {:induction false} RunClock(t: Timing, n: nat)
    ensures Run(t, n).clock == TickN(t.clock, n)
    decreases n
  {
    if n > 0 {
      RunClock(Step(t), n - 1);
    }
  }

  lemma {:induction false} RunKeepsVBlankExact(t: Timing, n: nat)
    requires VBlankExact(t)
    ensures VBlankExact(Run(t, n))
    decreases n
  {
    if n > 0 {
      StepKeepsVBlankExact(t);
      RunKeepsVBlankExact(Step(t), n - 1);
    }
  }

  /** The power-on state with the bit cleared, as `Reset` leaves it. */
  const PowerOnTiming := Timing(PowerOn, 0)

  /** From power-on, stepping alone keeps the bit equal to "inside the window". */
  lemma VBlankFromPowerOn(n: nat)
    ensures VBlankExact(Run(PowerOnTiming, n))
  {
    RunKeepsVBlankExact(PowerOnTiming, n);
  }

  /** Two steps from power-on reach dot 1 of scanline 241 with the bit set. */
  lemma PowerOnTwoSteps()
    ensures Run(PowerOnTiming, 1) == Timing(Clock(0, 241, 0), 0)
    ensures Run(PowerOnTiming, 2) == Timing(Clock(1, 241, 0), 1)
  {
  }

  /** Without status reads the whole timing state, bit included, repeats
      every 341 x 262 steps, one frame later. */
  lemma RunFramePeriod(t: Timing)
    requires VBlankExact(t)
    ensures Run(t, TicksPerFrame) == Timing(t.clock.(frame := t.clock.frame + 1), t.verticalBlank)
  {
    RunClock(t, TicksPerFrame);
    FramePeriod(t.clock, 1);
    RunKeepsVBlankExact(t, TicksPerFrame);
  }
}
