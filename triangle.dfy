/** The triangle channel: its registers as a value (TriangleState), the effect of its register
    writes and of one effective step of its waveform, and the class Triangle holding the same
    fields in place (apu.go:43-51, 338-371). */
module TriangleChannel {
  import opened GoTypes
  import opened Tables
  import opened Timers

  datatype TriangleState = TriangleState(
    value: Word,
    internalCountersDisabled: bool,
    timer: int,
    length: Word,
    counter: int,
    sample: int)
  {
    /** What every reachable triangle satisfies: a 7-bit linear value, an 11-bit timer, a 5-bit
        length, a step index into the 32-entry table and a sample from that table. */
    predicate Valid() {
      value < 0x80 && 0 <= timer < 0x800 && length < 32 && 0 <= counter < 32 && 0 <= sample <= 15
    }

    /** The linear-counter register ($4008): bits 6-0 are the value, bit 7 the control flag. */
    function WriteControl(v: Word): (t: TriangleState)
      ensures t.value == v & 0x7F && t.value < 0x80
      ensures t.internalCountersDisabled <==> v & 0x80 != 0
      ensures t == this.(value := t.value, internalCountersDisabled := t.internalCountersDisabled)
      ensures Valid() ==> t.Valid()
    {
      this.(value := v & 0x7F, internalCountersDisabled := (v >> 7) & 0x1 == 1)
    }

    /** The timer-low register ($400A). */
    function WriteLow(v: Word): (t: TriangleState)
      ensures 0 <= t.timer < 0x800 && t.timer % 0x100 == v as int
      ensures t == this.(timer := WithLowByte(timer, v))
      ensures Valid() ==> t.Valid()
    {
      this.(timer := WithLowByte(timer, v))
    }

    /** The timer-high register ($400B): the length is the byte's top five bits taken directly,
        not looked up in the length table; of the timer only the low byte survives. */
    function WriteHigh(v: Word): (t: TriangleState)
      ensures t.timer == timer % 0x100
      ensures t.length == v >> 3 && t.length < 32
      ensures t == this.(timer := t.timer, length := t.length)
      ensures Valid() ==> t.Valid()
    {
      this.(timer := WithHighBits(timer, v & 0xF), length := v >> 3)
    }

    /** One effective step of the waveform: the sample is the table entry at the current step
        (the table never exceeds 15, so the fold of larger entries never applies) and the step
        index moves on modulo 32. */
    function Advance(): (t: TriangleState)
      requires 0 <= counter < 32
      ensures t.sample == TriangleAt(counter) && 0 <= t.sample <= 15
      ensures t.counter == (counter + 1) % 32 && 0 <= t.counter < 32
      ensures t == this.(sample := t.sample, counter := t.counter)
      ensures Valid() ==> t.Valid()
    {
      var entry := TriangleLookup[counter];
      this.(sample := if entry > 15 then 31 - entry else entry, counter := (counter + 1) % 32)
    }
  }

  /** A triangle before any register write (Go's zero value). */
  const ZeroTriangle: TriangleState := TriangleState(0, false, 0, 0, 0, 0)

  lemma ZeroTriangleValid()
    ensures ZeroTriangle.Valid()
  {
  }

  /** The triangle after n effective steps. */
  function Advanced(tr: TriangleState, n: nat): (r: TriangleState)
    requires 0 <= tr.counter < 32
    ensures 0 <= r.counter < 32
    ensures r == tr.(counter := r.counter, sample := r.sample)
    ensures tr.Valid() ==> r.Valid()
    decreases n
  {
    if n == 0 then tr else Advanced(tr, n - 1).Advance()
  }

  /** Stepping an index that is already reduced modulo 32 is stepping the unreduced one. */
  lemma {:induction false} StepModulo(x: int)
    ensures (x % 32 + 1) % 32 == (x + 1) % 32
  {
    var q := x / 32;
    if x % 32 == 31 {
      assert x + 1 == 32 * (q + 1);
    } else {
      assert x + 1 == 32 * q + (x % 32 + 1);
    }
  }

  /** Indices a whole period apart name the same step. */
  lemma {:induction false} ShiftByPeriod(x: int)
    ensures (x + 32) % 32 == x % 32
  {
    assert x + 32 == 32 * (x / 32 + 1) + x % 32;
  }

  /** The step index after n effective steps from index c. */
  function CounterAfter(c: int, n: nat): int
    decreases n
  {
    if n == 0 then c else (CounterAfter(c, n - 1) + 1) % 32
  }

  /** n steps move an index n places around the table. */
  lemma {:induction false} CounterAfterMoves(c: int, n: nat)
    requires 0 <= c < 32
    ensures CounterAfter(c, n) == (c + n) % 32
    decreases n
  {
    if n > 0 {
      CounterAfterMoves(c, n - 1);
      StepModulo(c + n - 1);
    }
  }

  /** The triangle's index after n steps is CounterAfter's. */
  lemma {:induction false} AdvancedFollowsCounter(tr: TriangleState, n: nat)
    requires 0 <= tr.counter < 32
    ensures Advanced(tr, n).counter == CounterAfter(tr.counter, n)
    decreases n
  {
    if n > 0 {
      AdvancedFollowsCounter(tr, n - 1);
    }
  }

  /** 32 more steps bring any index back to the same place. */
  lemma CounterPeriodic(c: int, n: nat)
    requires 0 <= c < 32
    ensures CounterAfter(c, n + 32) == CounterAfter(c, n)
  {
    CounterAfterMoves(c, n);
    CounterAfterMoves(c, n + 32);
    ShiftByPeriod(c + n);
  }

  /** After n steps the index has moved n places around the table. */
  lemma AdvancedCounter(tr: TriangleState, n: nat)
    requires 0 <= tr.counter < 32
    ensures Advanced(tr, n).counter == (tr.counter + n) % 32
  {
    AdvancedFollowsCounter(tr, n);
    CounterAfterMoves(tr.counter, n);
  }

  /** After n > 0 steps the sample is the table entry at the index before the last step. */
  lemma AdvancedSample(tr: TriangleState, n: nat)
    requires 0 <= tr.counter < 32 && 0 < n
    ensures Advanced(tr, n).sample == TriangleAt(CounterAfter(tr.counter, n - 1))
  {
    AdvancedFollowsCounter(tr, n - 1);
  }

  /** 32 more effective steps bring the index back to the same place. */
  lemma PeriodicCounter(tr: TriangleState, n: nat)
    requires 0 <= tr.counter < 32
    ensures Advanced(tr, n + 32).counter == Advanced(tr, n).counter
  {
    AdvancedFollowsCounter(tr, n);
    AdvancedFollowsCounter(tr, n + 32);
    CounterPeriodic(tr.counter, n);
  }

  /** The waveform is periodic: once a step has been taken, 32 more effective steps repeat the
      same sample. */
  lemma PeriodicSample(tr: TriangleState, n: nat)
    requires 0 <= tr.counter < 32 && 0 < n
    ensures Advanced(tr, n + 32).sample == Advanced(tr, n).sample
  {
    AdvancedSample(tr, n);
    AdvancedSample(tr, n + 32);
    CounterPeriodic(tr.counter, n - 1);
  }

  class Triangle {
    var value: Word
    var internalCountersDisabled: bool
    var timer: int
    var length: Word
    var counter: int
    var sample: int

    function State(): TriangleState
      reads this
    {
      TriangleState(value, internalCountersDisabled, timer, length, counter, sample)
    }

    ghost predicate Valid()
      reads this
    {
      State().Valid()
    }

    constructor ()
      ensures Valid() && State() == ZeroTriangle
    {
      value, internalCountersDisabled, timer := 0, false, 0;
      length, counter, sample := 0, 0, 0;
    }

    /** One effective step of the waveform (the body of the Apu's ClockTriangle past its gate,
        apu.go:365-370). */
    method Advance()
      requires Valid()
      modifies this
      ensures Valid() && State() == old(State()).Advance()
    {
      var entry := TriangleLookup[counter];
      if entry > 15 {
        entry := 31 - entry;
      }
      sample := entry;
      counter := (counter + 1) % 32;
    }
  }
}
