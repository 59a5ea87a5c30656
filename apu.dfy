/** The sound chip as a whole: the five enable flags, two pulse channels, the triangle channel and
    the frame counter (apu.go:53-66), the register decoder behind the CPU's writes and reads of
    $4000-$4017, the oscillator and frame-sequencer steps, and the class Apu whose methods perform
    them in place. */
module ApuCore {
  import opened GoTypes
  import opened Tables
  import opened Timers
  import opened SquareChannel
  import opened TriangleChannel

  datatype Option<T> = None | Some(value: T)

  /** The thirteen registers a write can reach, each at a fixed offset in its 256-byte page. */
  datatype Register =
    | Square1Control | Square1Sweeps | Square1Low | Square1High
    | Square2Control | Square2Sweeps | Square2Low | Square2High
    | TriangleControl | TriangleLow | TriangleHigh
    | ControlFlags1 | ControlFlags2

  /** The offset of a register in its page ($4000 + offset on the CPU bus). */
  function Offset(r: Register): (o: int)
    ensures 0 <= o < 0x100
    ensures r.ControlFlags1? <==> o == 0x15
  {
    match r
    case Square1Control => 0x0
    case Square1Sweeps => 0x1
    case Square1Low => 0x2
    case Square1High => 0x3
    case Square2Control => 0x4
    case Square2Sweeps => 0x5
    case Square2Low => 0x6
    case Square2High => 0x7
    case TriangleControl => 0x8
    case TriangleLow => 0xA
    case TriangleHigh => 0xB
    case ControlFlags1 => 0x15
    case ControlFlags2 => 0x17
  }

  /** The register a write to `addr` reaches: only the address's low byte (`addr & 0xFF`, which is
      `addr % 0x100` in two's complement) is decoded, so every register is mirrored in every page;
      the offsets 0x9, 0xC-0x14, 0x16 and 0x18-0xFF reach nothing. */
  function RegisterAt(addr: int): (r: Option<Register>)
    ensures r.Some? ==> Offset(r.value) == addr % 0x100
  {
    var o := addr % 0x100;
    if o == 0x0 then Some(Square1Control)
    else if o == 0x1 then Some(Square1Sweeps)
    else if o == 0x2 then Some(Square1Low)
    else if o == 0x3 then Some(Square1High)
    else if o == 0x4 then Some(Square2Control)
    else if o == 0x5 then Some(Square2Sweeps)
    else if o == 0x6 then Some(Square2Low)
    else if o == 0x7 then Some(Square2High)
    else if o == 0x8 then Some(TriangleControl)
    else if o == 0xA then Some(TriangleLow)
    else if o == 0xB then Some(TriangleHigh)
    else if o == 0x15 then Some(ControlFlags1)
    else if o == 0x17 then Some(ControlFlags2)
    else None
  }

  /** Decoding inverts the offsets: every register is reached from every page at its offset, and
      an address reaches nothing exactly when its low byte is no register's offset. */
  lemma RegisterDecoding(r: Register, page: int, addr: int)
    ensures RegisterAt(page * 0x100 + Offset(r)) == Some(r)
    ensures RegisterAt(addr).None? <==> forall q: Register :: Offset(q) != addr % 0x100
  {
    assert (page * 0x100 + Offset(r)) % 0x100 == Offset(r);
    if RegisterAt(addr).None? {
      forall q: Register
        ensures Offset(q) != addr % 0x100
      {
      }
    }
  }

  /** The address of the status register; reads are decoded from the full address. */
  const StatusAddress: int := 0x4015

  datatype ApuState = ApuState(
    square1Enabled: bool,
    square2Enabled: bool,
    triangleEnabled: bool,
    noiseEnabled: bool,
    dmcEnabled: bool,
    square1: SquareState,
    square2: SquareState,
    triangle: TriangleState,
    frameCounter: int)
  {
    predicate Valid() {
      square1.Valid() && square2.Valid() && triangle.Valid() && IsInt(frameCounter)
    }

    /** One oscillator step: a pulse channel is clocked only when it is enabled and its timer is
        at least 8; otherwise it is left exactly as it was. The triangle, the flags and the frame
        counter are not touched. */
    function Step(): (t: ApuState)
      requires Valid()
      ensures t.Valid()
      ensures t.square1 == if square1Enabled && 8 <= square1.timer then square1.Clock() else square1
      ensures t.square2 == if square2Enabled && 8 <= square2.timer then square2.Clock() else square2
      ensures t.square1 != square1 ==> square1Enabled && 8 <= square1.timer
      ensures t.square2 != square2 ==> square2Enabled && 8 <= square2.timer
      ensures t == this.(square1 := t.square1, square2 := t.square2)
    {
      this.(square1 := if square1Enabled && square1.timer >= 8 then square1.Clock() else square1,
            square2 := if square2Enabled && square2.timer >= 8 then square2.Clock() else square2)
    }

    /** One frame-sequencer tick: both pulse channels take their tick for the current frame
        counter (SquareChannel.SquareState.SequencerTick), then the counter goes down by one. It
        is never reloaded; it only wraps, as a Go int, below the smallest int. */
    function FrameSequencerStep(): (t: ApuState)
      requires Valid()
      ensures t.Valid()
      ensures t.square1 == square1.SequencerTick(frameCounter)
      ensures t.square2 == square2.SequencerTick(frameCounter)
      ensures MinInt < frameCounter ==> t.frameCounter == frameCounter - 1
      ensures frameCounter == MinInt ==> t.frameCounter == MaxInt
      ensures t == this.(square1 := t.square1, square2 := t.square2, frameCounter := t.frameCounter)
    {
      this.(square1 := square1.SequencerTick(frameCounter),
            square2 := square2.SequencerTick(frameCounter),
            frameCounter := Wrap(frameCounter - 1))
    }

    /** The $4015 write: bits 0-4 enable square 1, square 2, the triangle, the noise channel and
        the DMC; the length of each disabled square or triangle becomes 0 and every other length
        is kept. */
    function WriteControlFlags1(v: Word): (t: ApuState)
      ensures t.square1Enabled <==> v & 0x01 != 0
      ensures t.square2Enabled <==> v & 0x02 != 0
      ensures t.triangleEnabled <==> v & 0x04 != 0
      ensures t.noiseEnabled <==> v & 0x08 != 0
      ensures t.dmcEnabled <==> v & 0x10 != 0
      ensures t.square1 == if t.square1Enabled then square1 else square1.(length := 0)
      ensures t.square2 == if t.square2Enabled then square2 else square2.(length := 0)
      ensures t.triangle == if t.triangleEnabled then triangle else triangle.(length := 0)
      ensures t.frameCounter == frameCounter
      ensures Valid() ==> t.Valid()
    {
      this.(square1Enabled := v & 0x1 == 0x1, square2Enabled := (v >> 1) & 0x1 == 0x1,
            triangleEnabled := (v >> 2) & 0x1 == 0x1, noiseEnabled := (v >> 3) & 0x1 == 0x1,
            dmcEnabled := (v >> 4) & 0x1 == 0x1).SilenceDisabled()
    }

    /** Each disabled square or triangle loses its length; nothing else changes. */
    function SilenceDisabled(): (t: ApuState)
      ensures t.square1 == if square1Enabled then square1 else square1.(length := 0)
      ensures t.square2 == if square2Enabled then square2 else square2.(length := 0)
      ensures t.triangle == if triangleEnabled then triangle else triangle.(length := 0)
      ensures t == this.(square1 := t.square1, square2 := t.square2, triangle := t.triangle)
      ensures Valid() ==> t.Valid()
    {
      this.(square1 := if square1Enabled then square1 else square1.(length := 0),
            square2 := if square2Enabled then square2 else square2.(length := 0),
            triangle := if triangleEnabled then triangle else triangle.(length := 0))
    }

    /** The $4017 write. The five-step test compares `v & 0x80` with 1, which it can never equal
        (it is 0 or 0x80), so every write selects a frame counter of 4 and changes nothing else. */
    function WriteControlFlags2(v: Word): (t: ApuState)
      ensures t == this.(frameCounter := 4)
    {
      this.(frameCounter := if v & 0x80 == 1 then 5 else 4)
    }

    /** The $4015 read: the raw lengths ORed at bit offsets 0, 1 and 3 within a Word, so the
        second length loses its top bit and the triangle's its top three. Bit 0 is square 1's
        lowest length bit; the status is 0 exactly when every length bit that survives is 0;
        and when every length is 0 or 1 it is the flag byte with square 1 at bit 0, square 2 at
        bit 1 and the triangle at bit 3. */
    function ReadStatus(): (r: Word)
      ensures r & 1 == square1.length & 1
      ensures r == 0 <==>
        square1.length == 0 && square2.length & 0x7F == 0 && triangle.length & 0x1F == 0
      ensures square1.length <= 1 && square2.length <= 1 && triangle.length <= 1 ==>
        r == (if square1.length == 1 then 1 else 0) | (if square2.length == 1 then 2 else 0) |
             (if triangle.length == 1 then 8 else 0)
    {
      (square1.length | (square2.length << 1) | (triangle.length << 3)) & 0xFF
    }

    /** A CPU read: the full address is compared, so only $4015 itself returns the status;
        every other address, including the mirrors of $4015 that writes reach, reads 0. The Go
        function's error result is nil on every path. */
    function RegRead(addr: int): (r: Word)
      ensures addr == StatusAddress ==> r == ReadStatus()
      ensures addr != StatusAddress ==> r == 0
    {
      if addr == StatusAddress then ReadStatus() else 0
    }

    /** The effect of a write to one register. A channel register applies that channel's own
        register write and changes nothing else; $4015 sets the flags and clears lengths; $4017
        changes only the frame counter. */
    function Write(reg: Register, v: Word): (t: ApuState)
      ensures Valid() ==> t.Valid()
      ensures reg == Square1Control ==> t == this.(square1 := square1.WriteControl(v))
      ensures reg == Square1Sweeps ==> t == this.(square1 := square1.WriteSweeps(v))
      ensures reg == Square1Low ==> t == this.(square1 := square1.WriteLow(v))
      ensures reg == Square1High ==> t == this.(square1 := square1.WriteHigh(v))
      ensures reg == Square2Control ==> t == this.(square2 := square2.WriteControl(v))
      ensures reg == Square2Sweeps ==> t == this.(square2 := square2.WriteSweeps(v))
      ensures reg == Square2Low ==> t == this.(square2 := square2.WriteLow(v))
      ensures reg == Square2High ==> t == this.(square2 := square2.WriteHigh(v))
      ensures reg == TriangleControl ==> t == this.(triangle := triangle.WriteControl(v))
      ensures reg == TriangleLow ==> t == this.(triangle := triangle.WriteLow(v))
      ensures reg == TriangleHigh ==> t == this.(triangle := triangle.WriteHigh(v))
      ensures reg == ControlFlags1 ==> t == WriteControlFlags1(v)
      ensures reg == ControlFlags2 ==> t == this.(frameCounter := 4)
    {
      match reg
      case Square1Control => this.(square1 := square1.WriteControl(v))
      case Square1Sweeps => this.(square1 := square1.WriteSweeps(v))
      case Square1Low => this.(square1 := square1.WriteLow(v))
      case Square1High => this.(square1 := square1.WriteHigh(v))
      case Square2Control => this.(square2 := square2.WriteControl(v))
      case Square2Sweeps => this.(square2 := square2.WriteSweeps(v))
      case Square2Low => this.(square2 := square2.WriteLow(v))
      case Square2High => this.(square2 := square2.WriteHigh(v))
      case TriangleControl => this.(triangle := triangle.WriteControl(v))
      case TriangleLow => this.(triangle := triangle.WriteLow(v))
      case TriangleHigh => this.(triangle := triangle.WriteHigh(v))
      case ControlFlags1 => WriteControlFlags1(v)
      case ControlFlags2 => WriteControlFlags2(v)
    }

    /** A CPU write: decoded from the address's low byte; an address that reaches no register
        changes nothing. */
    function RegWrite(v: Word, addr: int): (t: ApuState)
      ensures RegisterAt(addr).None? ==> t == this
      ensures RegisterAt(addr).Some? ==> t == Write(RegisterAt(addr).value, v)
      ensures Valid() ==> t.Valid()
    {
      match RegisterAt(addr)
      case None => this
      case Some(reg) => Write(reg, v)
    }

    /** One triangle step: nothing happens while the triangle is disabled or its timer is not
        positive; otherwise the waveform takes one effective step and nothing else changes. */
    function ClockTriangle(): (t: ApuState)
      requires Valid()
      ensures t.Valid()
      ensures !triangleEnabled || triangle.timer <= 0 ==> t == this
      ensures triangleEnabled && 0 < triangle.timer ==> t == this.(triangle := triangle.Advance())
    {
      if !triangleEnabled || triangle.timer <= 0 then this else this.(triangle := triangle.Advance())
    }
  }

  /** The chip before any register write (Go's zero value). */
  const ZeroApu: ApuState :=
    ApuState(false, false, false, false, false, ZeroSquare, ZeroSquare, ZeroTriangle, 0)

  lemma ZeroApuValid()
    ensures ZeroApu.Valid()
  {
  }

  /** The chip after n frame-sequencer ticks. */
  function FrameStepped(a: ApuState, n: nat): (r: ApuState)
    requires a.Valid()
    ensures r.Valid()
    ensures r.triangle == a.triangle
    decreases n
  {
    if n == 0 then a else FrameStepped(a, n - 1).FrameSequencerStep()
  }

  /** The frame counter only counts down: n ticks lower it by exactly n while it stays a Go int. */
  lemma {:induction false} FrameCounterCountsDown(a: ApuState, n: nat)
    requires a.Valid() && MinInt <= a.frameCounter - n
    ensures FrameStepped(a, n).frameCounter == a.frameCounter - n
    decreases n
  {
    if n > 0 {
      FrameCounterCountsDown(a, n - 1);
    }
  }

  /** Below 4, ticks never touch a length counter again. */
  lemma {:induction false} NoCountDownBelowFour(a: ApuState, n: nat)
    requires a.Valid() && a.frameCounter < 4 && MinInt <= a.frameCounter - n
    ensures FrameStepped(a, n).square1.length == a.square1.length
    ensures FrameStepped(a, n).square2.length == a.square2.length
    ensures FrameStepped(a, n).frameCounter == a.frameCounter - n
    decreases n
  {
    if n > 0 {
      NoCountDownBelowFour(a, n - 1);
    }
  }

  /** After a $4017 write the lengths count down once, on the first tick, and never again (for
      as long as the frame counter does not wrap around): the sequencer has no repeating cycle. */
  lemma {:induction false} LengthsCountDownOnce(a: ApuState, v: Word, n: nat)
    requires a.Valid() && 1 <= n <= MaxInt
    ensures var r := FrameStepped(a.WriteControlFlags2(v), n);
      && r.square1.length == CountedDown(a.square1.length)
      && r.square2.length == CountedDown(a.square2.length)
      && r.triangle.length == a.triangle.length
      && r.frameCounter == 4 - n
  {
    var b := a.WriteControlFlags2(v);
    var first := b.FrameSequencerStep();
    assert FrameStepped(b, 1) == first;
    NoCountDownBelowFour(first, n - 1);
    assert FrameStepped(b, n) == FrameStepped(first, n - 1) by {
      FrameSteppedShift(b, n - 1);
    }
  }

  /** The first of n + 1 ticks can be taken first. */
  lemma {:induction false} FrameSteppedShift(a: ApuState, n: nat)
    requires a.Valid()
    ensures FrameStepped(a, n + 1) == FrameStepped(a.FrameSequencerStep(), n)
    decreases n
  {
    if n > 0 {
      FrameSteppedShift(a, n - 1);
    }
  }

  /** Disabling a pulse channel through $4015 empties its length counter, so its status bit
      reads 0, and the oscillator step no longer clocks it. */
  lemma DisablingSquare1(a: ApuState, v: Word)
    requires a.Valid() && v & 0x1 == 0
    ensures a.WriteControlFlags1(v).ReadStatus() & 1 == 0
    ensures a.WriteControlFlags1(v).Step().square1 == a.square1.(length := 0)
  {
  }

  /** A channel that is disabled and re-enabled comes back with an empty length counter: on the
      next oscillator step it outputs 0 if its timer is at least 8, and otherwise is not clocked
      and keeps whatever sample it last produced. */
  lemma ReenabledSquare1IsSilent(a: ApuState, v: Word, w: Word)
    requires a.Valid() && v & 0x1 == 0 && w & 0x1 == 1
    ensures var b := a.WriteControlFlags1(v).WriteControlFlags1(w).Step();
      && b.square1.length == 0
      && (8 <= a.square1.timer ==> b.square1.sample == 0)
      && (a.square1.timer < 8 ==> b.square1.sample == a.square1.sample)
  {
    var b := a.WriteControlFlags1(v).WriteControlFlags1(w);
    ClockSilent(b.square1);
  }

  /** From power-on, enabling square 1 and writing $F8 to its timer-high register loads length
      index 31, which is 30, and the status read returns that raw length, not a 1. */
  lemma StatusShowsRawLength()
    ensures ZeroApu.RegWrite(0x01, 0x4015).RegWrite(0xF8, 0x4003).square1.length == 30
    ensures ZeroApu.RegWrite(0x01, 0x4015).RegWrite(0xF8, 0x4003).RegRead(0x4015) == 30
  {
    assert RegisterAt(0x4015) == Some(ControlFlags1);
    var a := ZeroApu.WriteControlFlags1(0x01);
    assert ZeroApu.RegWrite(0x01, 0x4015) == a;
    assert RegisterAt(0x4003) == Some(Square1High);
    var b := a.(square1 := a.square1.WriteHigh(0xF8));
    assert a.RegWrite(0xF8, 0x4003) == b;
    assert b.square1.length == LengthTable[31];
    assert b.square2.length == 0 && b.triangle.length == 0;
  }

  /** A write to every page's $15 offset reaches the control flags, but a read of the same
      mirror returns 0. */
  lemma StatusNotMirroredOnRead(a: ApuState, v: Word, page: int)
    requires page != 0x40
    ensures a.RegWrite(v, page * 0x100 + 0x15) == a.WriteControlFlags1(v)
    ensures a.RegRead(page * 0x100 + 0x15) == 0
  {
    RegisterDecoding(ControlFlags1, page, 0);
  }

  class Apu {
    var square1Enabled: bool
    var square2Enabled: bool
    var triangleEnabled: bool
    var noiseEnabled: bool
    var dmcEnabled: bool
    const square1: Square
    const square2: Square
    const triangle: Triangle
    var frameCounter: int

    function State(): ApuState
      reads this, square1, square2, triangle
    {
      ApuState(square1Enabled, square2Enabled, triangleEnabled, noiseEnabled, dmcEnabled,
               square1.State(), square2.State(), triangle.State(), frameCounter)
    }

    /** The two pulse channels are distinct objects, as the two struct fields are in Go. */
    ghost predicate Valid()
      reads this, square1, square2, triangle
    {
      square1 != square2 && State().Valid()
    }

    constructor ()
      ensures Valid() && State() == ZeroApu
      ensures fresh(square1) && fresh(square2) && fresh(triangle)
    {
      square1Enabled, square2Enabled, triangleEnabled := false, false, false;
      noiseEnabled, dmcEnabled := false, false;
      square1 := new Square();
      square2 := new Square();
      triangle := new Triangle();
      frameCounter := 0;
    }

    method Step()
      requires Valid()
      modifies square1, square2
      ensures Valid() && State() == old(State()).Step()
    {
      if square1Enabled && square1.timer >= 8 {
        square1.Clock();
      }
      if square2Enabled && square2.timer >= 8 {
        square2.Clock();
      }
    }

    method FrameSequencerStep()
      requires Valid()
      modifies this, square1, square2
      ensures Valid() && State() == old(State()).FrameSequencerStep()
    {
      if frameCounter == 4 {
        square1.CountDown();
        square2.CountDown();
      }
      if frameCounter < 5 {
        square1.ApplySweep();
        square2.ApplySweep();
      }
      frameCounter := Wrap(frameCounter - 1);
    }

    /** The $4015 read of the chip in place: the status of its current state, whose bit 0 is
        square 1's lowest length bit. */
    function ReadStatus(): (r: Word)
      reads this, square1, square2, triangle
      ensures r == State().ReadStatus()
      ensures r & 1 == square1.length & 1
    {
      State().ReadStatus()
    }

    /** A CPU read of the chip in place: only $4015 itself returns the status. */
    function RegRead(addr: int): (r: Word)
      reads this, square1, square2, triangle
      ensures addr == StatusAddress ==> r == ReadStatus()
      ensures addr != StatusAddress ==> r == 0
    {
      State().RegRead(addr)
    }

    method RegWrite(v: Word, addr: int)
      requires Valid()
      modifies this, square1, square2, triangle
      ensures Valid() && State() == old(State()).RegWrite(v, addr)
    {
      match addr % 0x100
      case 0x0 => WriteSquare1Control(v);
      case 0x1 => WriteSquare1Sweeps(v);
      case 0x2 => WriteSquare1Low(v);
      case 0x3 => WriteSquare1High(v);
      case 0x4 => WriteSquare2Control(v);
      case 0x5 => WriteSquare2Sweeps(v);
      case 0x6 => WriteSquare2Low(v);
      case 0x7 => WriteSquare2High(v);
      case 0x8 => WriteTriangleControl(v);
      case 0xA => WriteTriangleLow(v);
      case 0xB => WriteTriangleHigh(v);
      case 0x15 => WriteControlFlags1(v);
      case 0x17 => WriteControlFlags2(v);
      case _ =>
    }

    method WriteControlFlags1(v: Word)
      requires Valid()
      modifies this, square1, square2, triangle
      ensures Valid() && State() == old(State()).WriteControlFlags1(v)
    {
      square1Enabled := v & 0x1 == 0x1;
      square2Enabled := (v >> 1) & 0x1 == 0x1;
      triangleEnabled := (v >> 2) & 0x1 == 0x1;
      noiseEnabled := (v >> 3) & 0x1 == 0x1;
      dmcEnabled := (v >> 4) & 0x1 == 0x1;
      SilenceDisabled();
    }

    /** The second half of the $4015 write (apu.go:230-238). */
    method SilenceDisabled()
      requires Valid()
      modifies square1, square2, triangle
      ensures Valid() && State() == old(State()).SilenceDisabled()
    {
      if !square1Enabled {
        square1.length := 0;
      }
      if !square2Enabled {
        square2.length := 0;
      }
      if !triangleEnabled {
        triangle.length := 0;
      }
    }

    method WriteControlFlags2(v: Word)
      requires Valid()
      modifies this
      ensures Valid() && State() == old(State()).WriteControlFlags2(v)
    {
      var next := 4;
      if v & 0x80 == 1 {
        next := 5;
      }
      frameCounter := next;
    }

    method WriteSquare1Control(v: Word)
      requires Valid()
      modifies square1
      ensures Valid() && State() == old(State()).Write(Square1Control, v)
    {
      square1.WriteControl(v);
    }

    method WriteSquare1Sweeps(v: Word)
      requires Valid()
      modifies square1
      ensures Valid() && State() == old(State()).Write(Square1Sweeps, v)
    {
      square1.WriteSweeps(v);
    }

    method WriteSquare1Low(v: Word)
      requires Valid()
      modifies square1
      ensures Valid() && State() == old(State()).Write(Square1Low, v)
    {
      square1.WriteLow(v);
    }

    method WriteSquare1High(v: Word)
      requires Valid()
      modifies square1
      ensures Valid() && State() == old(State()).Write(Square1High, v)
    {
      square1.WriteHigh(v);
    }

    method WriteSquare2Control(v: Word)
      requires Valid()
      modifies square2
      ensures Valid() && State() == old(State()).Write(Square2Control, v)
    {
      square2.WriteControl(v);
    }

    method WriteSquare2Sweeps(v: Word)
      requires Valid()
      modifies square2
      ensures Valid() && State() == old(State()).Write(Square2Sweeps, v)
    {
      square2.WriteSweeps(v);
    }

    method WriteSquare2Low(v: Word)
      requires Valid()
      modifies square2
      ensures Valid() && State() == old(State()).Write(Square2Low, v)
    {
      square2.WriteLow(v);
    }

    method WriteSquare2High(v: Word)
      requires Valid()
      modifies square2
      ensures Valid() && State() == old(State()).Write(Square2High, v)
    {
      square2.WriteHigh(v);
    }

    method WriteTriangleControl(v: Word)
      requires Valid()
      modifies triangle
      ensures Valid() && State() == old(State()).Write(TriangleControl, v)
    {
      triangle.value := v & 0x7F;
      triangle.internalCountersDisabled := (v >> 7) & 0x1 == 1;
    }

    method WriteTriangleLow(v: Word)
      requires Valid()
      modifies triangle
      ensures Valid() && State() == old(State()).Write(TriangleLow, v)
    {
      triangle.timer := WithLowByte(triangle.timer, v);
    }

    method WriteTriangleHigh(v: Word)
      requires Valid()
      modifies triangle
      ensures Valid() && State() == old(State()).Write(TriangleHigh, v)
    {
      triangle.timer := WithHighBits(triangle.timer, v & 0xF);
      triangle.length := v >> 3;
    }

    method ClockTriangle()
      requires Valid()
      modifies triangle
      ensures Valid() && State() == old(State()).ClockTriangle()
    {
      if !triangleEnabled || triangle.timer <= 0 {
        return;
      }
      triangle.Advance();
    }
  }
}
