/** A pulse ("square") channel: its registers as a value (SquareState), the effect of each of its
    register writes and of one oscillator clock as functions on that value, and the class Square
    whose methods perform the same updates in place (apu.go:26-41, 68-106). */
module SquareChannel {
  import opened GoTypes
  import opened Tables
  import opened Timers

  /** Count a Word counter down by one, stopping at 0. */
  function CountedDown(w: Word): (r: Word)
    ensures r as int == if w == 0 then 0 else w as int - 1
  {
    if w > 0 then w - 1 else w
  }

  /** The bit fields of a control byte, read as integers. */
  lemma ControlFields(v: Word)
    ensures ((v >> 4) & 0x1 == 1) <==> v & 0x10 != 0
    ensures ((v >> 5) & 0x1 == 1) <==> v & 0x20 != 0
    ensures (v >> 6) & 0x3 == v >> 6
    ensures (v & 0xF) + ((v >> 1) & 0x10) == (v & 0xF) | (if v & 0x20 != 0 then 0x10 else 0)
  {
  }

  /** The bit fields of a sweep byte, read as integers. */
  lemma SweepFields(v: Word)
    ensures 1 <= ((v >> 4) & 0x7) + 1 <= 8
    ensures (v & 0x10 == 0x10) <==> (((v >> 4) & 0x7) + 1) % 2 == 0
  {
  }

  /** The output a duty step selects: the envelope on a high step of the pattern, 0 on a low one. */
  function Amplitude(duty: Word, step: Word, envelope: Word): (a: int)
    requires duty < 4 && step < 8
    ensures DutyBit(duty, step) == 1 ==> a == envelope as int
    ensures DutyBit(duty, step) == 0 ==> a == 0
    ensures envelope < 32 ==> 0 <= a < 32
  {
    if DutyBit(duty, step) == 1 then envelope as int else 0
  }

  /** The duty step after one clock: it moves on, modulo 8, when the divider is at 0. */
  function NextStep(dutyCount: Word, timerCount: int): (d: Word)
    requires dutyCount < 8
    ensures d < 8
  {
    if timerCount == 0 then (dutyCount + 1) & 0x7 else dutyCount
  }

  /** The value the divider reloads with when it reaches 0: (timer + 1) * 2 in Go ints. */
  function Reload(timer: int): (r: int)
    requires IsInt(timer)
    ensures IsInt(r)
    ensures 0 <= timer && (timer + 1) * 2 <= MaxInt ==> r == (timer + 1) * 2
  {
    Wrap(Wrap(timer + 1) * 2)
  }

  /** The divider after one clock: reloaded if it was at 0, then lowered by one. */
  function NextCount(timer: int, timerCount: int): (c: int)
    requires IsInt(timer) && IsInt(timerCount)
    ensures IsInt(c)
  {
    Wrap((if timerCount == 0 then Reload(timer) else timerCount) - 1)
  }

  /** The timer after one sweep, `timer -/+ (timer >> shift)` in Go ints: a negative sweep
      never takes a non-negative timer below 0 nor raises it, and lowers it once the timer is at
      least 2^shift; a positive sweep that does not overflow never lowers it, and raises it once
      the timer is at least 2^shift. */
  function Swept(timer: int, shift: nat, negative: bool): (r: int)
    requires IsInt(timer)
    ensures IsInt(r)
    ensures negative ==> r == timer - Shr(timer, shift)
    ensures !negative ==> r == Wrap(timer + Shr(timer, shift))
    ensures negative && 0 <= timer ==> 0 <= r <= timer
    ensures !negative && 0 <= timer && timer + Shr(timer, shift) <= MaxInt ==> timer <= r
    ensures negative && Pow2(shift) <= timer ==> r < timer
    ensures !negative && Pow2(shift) <= timer && timer + Shr(timer, shift) <= MaxInt ==> timer < r
  {
    ShrPositive(timer, shift);
    if negative then Wrap(timer - Shr(timer, shift)) else Wrap(timer + Shr(timer, shift))
  }

  datatype SquareState = SquareState(
    envelope: Word,
    envelopeDisabled: bool,
    lengthDisabled: bool,
    dutyCycle: Word,
    dutyCount: Word,
    timer: int,
    timerCount: int,
    length: Word,
    sweepEnabled: bool,
    sweep: Word,
    shift: Word,
    negative: bool,
    sample: int)
  {
    /** What every reachable channel satisfies: the two table indices are in range, the control
        write's envelope is at most 31 (so the int16 sample is too), the sweep fields are within
        their register fields, and both int counters hold Go ints. */
    predicate Valid() {
      envelope < 32 && dutyCycle < 4 && dutyCount < 8 && IsInt(timer) && IsInt(timerCount) &&
      sweep <= 8 && shift < 8 && 0 <= sample < 32
    }

    /** The control register ($4000 / $4004): duty from bits 7-6, length-disable from bit 5,
        envelope-disable from bit 4, and an envelope of bits 3-0 plus bit 5 folded in as 16. */
    function WriteControl(v: Word): (t: SquareState)
      ensures t.envelopeDisabled <==> v & 0x10 != 0
      ensures t.lengthDisabled <==> v & 0x20 != 0
      ensures t.dutyCycle == v >> 6 && t.dutyCycle < 4
      ensures t.envelope == (v & 0xF) | (if v & 0x20 != 0 then 0x10 else 0)
      ensures t.envelope < 32 && (0x10 <= t.envelope <==> t.lengthDisabled)
      ensures t == this.(envelopeDisabled := t.envelopeDisabled, lengthDisabled := t.lengthDisabled,
                         dutyCycle := t.dutyCycle, envelope := t.envelope)
      ensures Valid() ==> t.Valid()
    {
      ControlFields(v);
      this.(envelopeDisabled := (v >> 4) & 0x1 == 1,
            lengthDisabled := (v >> 5) & 0x1 == 1,
            dutyCycle := (v >> 6) & 0x3,
            envelope := (v & 0xF) + ((v >> 1) & 0x10))
    }

    /** The sweep register: enable from bit 7, a period of bits 6-4 plus one, a shift of bits
        2-0, and a direction read from bit 4 -- the low bit of the period field, so the sweep is
        negative exactly when the stored period is even. */
    function WriteSweeps(v: Word): (t: SquareState)
      ensures t.sweepEnabled <==> v & 0x80 != 0
      ensures 1 <= t.sweep <= 8 && t.sweep - 1 == (v >> 4) & 0x7
      ensures t.shift == v & 0x7 && t.shift < 8
      ensures t.negative <==> v & 0x10 != 0
      ensures t.negative <==> t.sweep % 2 == 0
      ensures t == this.(sweepEnabled := t.sweepEnabled, sweep := t.sweep,
                         negative := t.negative, shift := t.shift)
      ensures Valid() ==> t.Valid()
    {
      SweepFields(v);
      this.(sweepEnabled := v & 0x80 == 0x80,
            sweep := ((v >> 4) & 0x7) + 1,
            negative := v & 0x10 == 0x10,
            shift := v & 0x7)
    }

    /** The timer-low register: the byte becomes bits 0-7 of the timer (Timers.WithLowByte). */
    function WriteLow(v: Word): (t: SquareState)
      ensures 0 <= t.timer < 0x800 && t.timer % 0x100 == v as int
      ensures t == this.(timer := WithLowByte(timer, v))
      ensures Valid() ==> t.Valid()
    {
      this.(timer := WithLowByte(timer, v))
    }

    /** The timer-high register: the length counter is loaded from the table at the byte's top
        five bits; of the timer only the low byte survives (Timers.WithHighBits). */
    function WriteHigh(v: Word): (t: SquareState)
      ensures t.timer == timer % 0x100
      ensures t.length == LengthAt((v >> 3) as int) && 2 <= t.length
      ensures t == this.(timer := t.timer, length := t.length)
      ensures Valid() ==> t.Valid()
    {
      this.(timer := WithHighBits(timer, v & 0x7),
            length := LengthTable[((v & 0xF8) >> 3) as int])
    }

    /** One oscillator clock (apu.go:84-105); what it does is stated by ClockSilent,
        ClockSounding and ClockDivider below. */
    function Clock(): (t: SquareState)
      requires Valid()
      ensures t.Valid()
    {
      if length == 0 then
        this.(sample := 0)
      else
        var env: Word := if envelopeDisabled then 0xF else envelope;
        var duty := NextStep(dutyCount, timerCount);
        this.(envelope := env, dutyCount := duty, timerCount := NextCount(timer, timerCount),
              sample := Amplitude(dutyCycle, duty, env))
    }

    /** The half-frame part of a sequencer tick: the length counter and the sweep counter each
        count down by one, stopping at 0. */
    function CountDown(): (t: SquareState)
      ensures t.length as int == if length == 0 then 0 else length as int - 1
      ensures t.sweep as int == if sweep == 0 then 0 else sweep as int - 1
      ensures t == this.(length := t.length, sweep := t.sweep)
      ensures Valid() ==> t.Valid()
    {
      this.(length := CountedDown(length), sweep := CountedDown(sweep))
    }

    /** The pitch sweep: only with the sweep enabled and its counter above 0 is the timer moved,
        as Swept describes; nothing else ever changes. */
    function ApplySweep(): (t: SquareState)
      requires Valid()
      ensures t.Valid()
      ensures !(sweepEnabled && sweep > 0) ==> t == this
      ensures sweepEnabled && sweep > 0 ==> t == this.(timer := Swept(timer, shift as int, negative))
    {
      if sweepEnabled && sweep > 0 && negative then
        this.(timer := Wrap(timer - Shr(timer, shift as int)))
      else if sweepEnabled && sweep > 0 then
        this.(timer := Wrap(timer + Shr(timer, shift as int)))
      else
        this
    }

    /** What one frame-sequencer tick does to this channel, given the frame counter before the
        tick: at 4 the counters count down, below 5 the sweep is applied (after that count-down,
        so a sweep counter that has just reached 0 no longer sweeps), and from 5 up nothing
        happens. The timer moves only below 5, with the sweep enabled and its counter positive. */
    function SequencerTick(frameCounter: int): (t: SquareState)
      requires Valid()
      ensures t.Valid()
      ensures frameCounter == 4 ==> t == CountDown().ApplySweep()
      ensures frameCounter < 4 ==> t == ApplySweep()
      ensures 5 <= frameCounter ==> t == this
      ensures t == this.(timer := t.timer, length := t.length, sweep := t.sweep)
      ensures frameCounter != 4 ==> t.length == length && t.sweep == sweep
      ensures t.timer != timer ==> frameCounter < 5 && sweepEnabled && t.sweep > 0
    {
      var counted := if frameCounter == 4 then CountDown() else this;
      if frameCounter < 5 then counted.ApplySweep() else counted
    }
  }

  /** A silent channel (length 0) only outputs 0 and changes nothing else. */
  lemma ClockSilent(s: SquareState)
    requires s.Valid() && s.length == 0
    ensures s.Clock() == s.(sample := 0)
  {
  }

  /** A sounding channel: a fixed envelope is forced to 15; the duty step advances, modulo 8,
      exactly when the divider has run down to 0, and the divider is then reloaded with
      (timer + 1) * 2; the divider counts down by one on every clock; the output is the envelope
      on a high duty step and 0 on a low one; nothing else changes. */
  lemma ClockSounding(s: SquareState)
    requires s.Valid() && s.length != 0
    ensures var t := s.Clock();
      && t == s.(envelope := t.envelope, dutyCount := t.dutyCount, timerCount := t.timerCount, sample := t.sample)
      && t.envelope == (if s.envelopeDisabled then 15 else s.envelope)
      && t.dutyCount == (if s.timerCount == 0 then (s.dutyCount + 1) % 8 else s.dutyCount)
      && t.timerCount == Wrap((if s.timerCount == 0 then Reload(s.timer) else s.timerCount) - 1)
      && t.sample == (if DutyBit(s.dutyCycle, t.dutyCount) == 1 then t.envelope as int else 0)
  {
  }

  /** The divider's count stays non-negative while the reload value fits a Go int; it is reloaded
      only from 0, and otherwise counts down by exactly one. The output is 0 or the envelope. */
  lemma ClockDivider(s: SquareState)
    requires s.Valid()
    ensures var t := s.Clock();
      && (t.sample == 0 || t.sample == t.envelope as int)
      && (s.length != 0 && s.timerCount != 0 && MinInt < s.timerCount ==> t.timerCount == s.timerCount - 1)
      && (s.length != 0 && s.timerCount == 0 && 0 <= s.timer && (s.timer + 1) * 2 <= MaxInt ==>
            t.timerCount == (s.timer + 1) * 2 - 1)
      && (0 <= s.timerCount && 0 <= s.timer && (s.timer + 1) * 2 <= MaxInt ==> 0 <= t.timerCount)
      && (t.dutyCount != s.dutyCount ==> s.timerCount == 0)
  {
  }

  /** A channel's state before any register write (Go's zero value). */
  const ZeroSquare: SquareState :=
    SquareState(0, false, false, 0, 0, 0, 0, 0, false, 0, 0, false, 0)

  lemma ZeroSquareValid()
    ensures ZeroSquare.Valid()
  {
  }

  /** The channel after n oscillator clocks. */
  function Clocked(s: SquareState, n: nat): (r: SquareState)
    requires s.Valid()
    ensures r.Valid()
    ensures r.timer == s.timer && r.length == s.length && r.dutyCycle == s.dutyCycle
    decreases n
  {
    if n == 0 then s else Clocked(s.Clock(), n - 1)
  }

  /** While the divider is still running down, clocks leave the duty step alone and lower the
      divider by one each. */
  lemma {:induction false} RunningDown(s: SquareState, n: nat)
    requires s.Valid() && s.length != 0 && n <= s.timerCount
    ensures Clocked(s, n).timerCount == s.timerCount - n
    ensures Clocked(s, n).dutyCount == s.dutyCount
    decreases n
  {
    if n > 0 {
      RunningDown(s.Clock(), n - 1);
    }
  }

  /** The divider sets the pitch: from a divider at 0, a sounding channel advances its duty step
      once every (timer + 1) * 2 clocks, and the divider is back at 0 at the end. */
  lemma {:induction false} DutyStepPeriod(s: SquareState)
    requires s.Valid() && s.length != 0 && s.timerCount == 0
    requires 0 <= s.timer && (s.timer + 1) * 2 <= MaxInt
    ensures Clocked(s, (s.timer + 1) * 2).timerCount == 0
    ensures Clocked(s, (s.timer + 1) * 2).dutyCount == (s.dutyCount + 1) % 8
  {
    var first := s.Clock();
    assert Clocked(s, (s.timer + 1) * 2) == Clocked(first, (s.timer + 1) * 2 - 1);
    RunningDown(first, (s.timer + 1) * 2 - 1);
  }

  class Square {
    var envelope: Word
    var envelopeDisabled: bool
    var lengthDisabled: bool
    var dutyCycle: Word
    var dutyCount: Word
    var timer: int
    var timerCount: int
    var length: Word
    var sweepEnabled: bool
    var sweep: Word
    var shift: Word
    var negative: bool
    var sample: int

    function State(): SquareState
      reads this
    {
      SquareState(envelope, envelopeDisabled, lengthDisabled, dutyCycle, dutyCount, timer,
                  timerCount, length, sweepEnabled, sweep, shift, negative, sample)
    }

    ghost predicate Valid()
      reads this
    {
      State().Valid()
    }

    constructor ()
      ensures Valid() && State() == ZeroSquare
    {
      envelope, envelopeDisabled, lengthDisabled := 0, false, false;
      dutyCycle, dutyCount, timer, timerCount := 0, 0, 0, 0;
      length, sweepEnabled, sweep, shift, negative, sample := 0, false, 0, 0, false, 0;
    }

    /** The control register; in the Go code the Apu's two control writers assign these fields
        themselves, with the same statements for either channel. */
    method WriteControl(v: Word)
      requires Valid()
      modifies this
      ensures Valid() && State() == old(State()).WriteControl(v)
    {
      ControlFields(v);
      envelopeDisabled := (v >> 4) & 0x1 == 1;
      lengthDisabled := (v >> 5) & 0x1 == 1;
      dutyCycle := (v >> 6) & 0x3;
      envelope := v & 0xF;
      envelope := envelope + ((v >> 1) & 0x10);
    }

    method WriteSweeps(v: Word)
      requires Valid()
      modifies this
      ensures Valid() && State() == old(State()).WriteSweeps(v)
    {
      sweepEnabled := v & 0x80 == 0x80;
      sweep := ((v >> 4) & 0x7) + 1;
      negative := v & 0x10 == 0x10;
      shift := v & 0x7;
    }

    method WriteLow(v: Word)
      requires Valid()
      modifies this
      ensures Valid() && State() == old(State()).WriteLow(v)
    {
      timer := WithLowByte(timer, v);
    }

    method WriteHigh(v: Word)
      requires Valid()
      modifies this
      ensures Valid() && State() == old(State()).WriteHigh(v)
    {
      timer := WithHighBits(timer, v & 0x7);
      length := LengthTable[((v & 0xF8) >> 3) as int];
    }

    /** The half-frame part of a frame-sequencer tick (apu.go:138-151). */
    method CountDown()
      requires Valid()
      modifies this
      ensures Valid() && State() == old(State()).CountDown()
    {
      if length > 0 {
        length := length - 1;
      }
      if sweep > 0 {
        sweep := sweep - 1;
      }
    }

    /** The sweep part of a frame-sequencer tick (apu.go:154-158). */
    method ApplySweep()
      requires Valid()
      modifies this
      ensures Valid() && State() == old(State()).ApplySweep()
    {
      if sweepEnabled && sweep > 0 && negative {
        timer := Wrap(timer - Shr(timer, shift as int));
      } else if sweepEnabled && sweep > 0 {
        timer := Wrap(timer + Shr(timer, shift as int));
      }
    }

    method Clock()
      requires Valid()
      modifies this
      ensures Valid() && State() == old(State()).Clock()
    {
      if length > 0 {
        if envelopeDisabled {
          envelope := 0xF;
        }
        if timerCount == 0 {
          dutyCount := (dutyCount + 1) & 0x7;
          timerCount := Reload(timer);
        }
        sample := Amplitude(dutyCycle, dutyCount, envelope);
        timerCount := Wrap(timerCount - 1);
      } else {
        sample := 0;
      }
    }
  }
}
