# NES sound chip (APU) core of the Fergulator emulator, in Dafny

This project models `apu.go`, the sound-chip core of the Fergulator NES emulator. The chip has:

- two pulse ("square") channels,
- one triangle channel,
- a frame sequencer,
- a status register.

The CPU drives the chip by writing bytes to $4000-$4017 (`RegWrite`) and reading $4015 (`RegRead`). The emulator's clock calls `Step`, `FrameSequencerStep` and `ClockTriangle`. Every operation is a small in-place update of struct fields, steered by three constant tables.

The model has two layers:

- **Values.** Each entity has a datatype: `SquareState`, `TriangleState` and `ApuState`. Each operation is a function on that value. The contracts and lemmas of these functions state what the code does.
- **Classes.** The classes `Square`, `Triangle` and `Apu` hold the same fields as the Go structs. Their methods perform the Go statements in place. Each method is proved to leave `State()` equal to the function applied to the old state, so every property proved about the functions holds for the methods.

The machine types are explicit (module `GoTypes`):

- The emulator's `Word` is an 8-bit unsigned byte (`bv8`, width `WordBits = 8`). Shifts and additions on a Word wrap at 8 bits before any conversion to `int`.
- Go's `int` is taken as 64-bit. `Wrap` states its two's-complement wrap-around, and `Shr` states its arithmetic right shift.

The model keeps these behaviours of the code as written:

- Every write to $4017 leaves the frame counter at 4. The test `v & 0x80 == 1` can never hold.
- The sweep's direction bit is bit 4, which is also the low bit of the sweep-period field. So a sweep is negative exactly when its stored period (1-8) is even.
- A control write folds bit 5 into the pulse envelope as 16, so the envelope can reach 31. Right after a control write, the envelope is at least 16 exactly when the length counter is disabled. A later clock of a sounding channel whose envelope-disable bit is set overwrites the envelope with 15 (`ClockSounding`).
- A timer-high write shifts the written low bits by 8 inside a Word, so they are lost. The timer keeps only its low byte.
- The status read ORs together the raw length values at bit offsets 0, 1 and 3. It does not build 0/1 flags, and the triangle lands on bit 3.
- The triangle length is `v >> 3`, used directly rather than looked up in the length table.
- The frame counter is only ever decremented; it is never reloaded. After a $4017 write, the lengths count down once and never again (`LengthsCountDownOnce`), for as long as the counter does not wrap around. From power-on (counter 0) they never count down at all.
- The sweep is not clamped. A positive sweep can take the timer past 2047 and, eventually, wrap it as a Go int.
- A write decodes only the address's low byte, so the registers are mirrored in every 256-byte page. A read compares the full address, so only $4015 itself returns the status.
- A pulse channel that is disabled is no longer clocked. A channel that is disabled and then re-enabled while its timer is below 8 keeps outputting the last sample it produced.

Where the code differs from the NES sound chip it emulates (the five-step mode that the code's own comment at apu.go:269 names, 0/1 length-status bits, a repeating frame sequence), the model follows the code.

The project has six modules, one file each:

| module | file | what it holds |
|---|---|---|
| `GoTypes` | go_types.dfy | the machine types |
| `Tables` | tables.dfy | the three lookup tables |
| `Timers` | timers.dfy | the byte-wise timer updates |
| `SquareChannel` | square.dfy | the pulse channel |
| `TriangleChannel` | triangle.dfy | the triangle channel |
| `ApuCore` | apu.dfy | the register decoder, the chip state and the `Apu` class |

## Model

| member | source | states |
|---|---|---|
| GoTypes.Wrap | apu.go:168 | a Go int operation's result: always a 64-bit int, the exact value when that fits, otherwise the value moved by 2^64 |
| GoTypes.Shr | apu.go:155-158 | `x >> s` on a signed int: a non-negative x gives a result in [0, x], a negative x gives one in [x, -1], and a shift of 0 changes nothing |
| GoTypes.ShrMonotone | apu.go:155-158 | the arithmetic shift is monotone in the shifted value |
| GoTypes.ShrOfPow2 | apu.go:155-158 | 2^s shifted right by s is 1 |
| GoTypes.ShrIsDivision | apu.go:155-158 | the arithmetic shift by s is floor division by 2^s, for every int and every count |
| GoTypes.ShrPositive | apu.go:155-158 | shifting a value of at least 2^s right by s leaves at least 1 |
| Tables.DutyBit | apu.go:4-9 | every duty-table entry is 0 or 1, and duty cycle 3 is the exact complement of duty cycle 1 |
| Tables.DutyWeights | apu.go:4-9 | the duty table has four rows of eight steps, high for 1, 2, 4 and 6 steps respectively |
| Tables.TriangleAt | apu.go:11-16 | the triangle table is the ramp 8..15, 15..0, 0..7 and lies in 0..15 |
| Tables.TriangleSymmetry | apu.go:11-16 | entries half a period apart add up to 15, and each half of the table mirrors itself |
| Tables.LengthAt | apu.go:18-23 | every length-table value is even and at least 2; index 1 loads 254 |
| Tables.OddLengths | apu.go:18-23 | every odd index from 3 to 31 loads one less than itself |
| Timers.Bits8To10 | apu.go:76 | `timer & 0x700` on a Go int is a multiple of 256 in [0, 0x800) holding bits 8-10 of the timer |
| Timers.WithLowByte | apu.go:75-77 | a timer-low write gives a timer in [0, 0x800) whose low byte is the written byte and whose bits 8-10 are the old ones |
| Timers.WithHighBits | apu.go:79-82 | a timer-high write leaves only the old low byte, because the written bits are shifted out of the 8-bit Word |
| Timers.LowThenHigh | apu.go:75-82 | a timer-low write is idempotent, and a high write after it leaves exactly the written low byte |
| Timers.LowByteOnly | apu.go:75-77 | on an 11-bit timer, a low write changes only the low byte |
| SquareChannel.CountedDown | apu.go:138-144 | a Word counter counts down by one and stops at 0 |
| SquareChannel.Amplitude | apu.go:96-100 | the pulse output is the envelope on a high duty step and 0 on a low one, so it is below 32 |
| SquareChannel.NextStep | apu.go:90-91 | the duty step stays in 0..7 |
| SquareChannel.Reload | apu.go:93 | the divider reload is a Go int, and is (timer + 1) * 2 for a non-negative timer when that fits |
| SquareChannel.NextCount | apu.go:90-102 | the divider stays a Go int after a clock |
| SquareChannel.Swept | apu.go:154-158 | a negative sweep keeps a non-negative timer in [0, timer] and lowers it once the timer is at least 2^shift; a positive sweep that does not overflow never lowers the timer and raises it once the timer is at least 2^shift |
| SquareChannel.SquareState.WriteControl | apu.go:278-290 | duty from bits 7-6 (below 4), length-disable from bit 5, envelope-disable from bit 4, envelope (v & 0xF) plus 16 if bit 5 is set: at most 31, and at least 16 exactly when the length counter is disabled; nothing else changes |
| SquareChannel.SquareState.WriteSweeps | apu.go:68-73 | enable from bit 7; sweep in [1, 8], equal to bits 6-4 plus one; shift in [0, 7]; negative exactly when bit 4 is set, which is exactly when the sweep is even; nothing else changes |
| SquareChannel.SquareState.WriteLow | apu.go:75-77 | only the timer changes, to an 11-bit value with the written low byte |
| SquareChannel.SquareState.WriteHigh | apu.go:79-82 | the length is loaded from the table at the top five bits (so at least 2); the timer keeps only its low byte; nothing else changes |
| SquareChannel.SquareState.Clock | apu.go:84-106 | one oscillator clock keeps every channel invariant (the duty step in 0..7, the envelope and the sample below 32, both counters Go ints) |
| SquareChannel.SquareState.CountDown | apu.go:138-144 | the length and the sweep counter each drop by one, stopping at 0; nothing else changes |
| SquareChannel.SquareState.ApplySweep | apu.go:154-158 | the timer moves by Swept only when the sweep is enabled and its counter is above 0; otherwise nothing changes |
| SquareChannel.SquareState.SequencerTick | apu.go:137-166 | at frame counter 4 the counters count down and then the sweep is applied; below 4 only the sweep is applied; from 5 nothing happens; the timer moves only below 5 with the sweep enabled and its counter positive |
| SquareChannel.ClockSilent | apu.go:103-105 | with a length of 0, a clock sets the sample to 0 and changes nothing else |
| SquareChannel.ClockSounding | apu.go:85-102 | with a non-zero length, a fixed envelope is forced to 15; the duty step advances modulo 8 exactly when the divider was 0, and the divider is then reloaded; the divider drops by one; the sample follows the duty table; nothing else changes |
| SquareChannel.ClockDivider | apu.go:90-102 | on a sounding channel (length not 0) the divider drops by exactly one unless it was 0, when it becomes (timer + 1) * 2 - 1; the output is 0 or the envelope; a non-negative divider stays non-negative while the reload fits; the duty step moves only from a divider of 0 |
| SquareChannel.ZeroSquareValid | apu.go:26-41 | the zero-valued channel satisfies the invariant |
| SquareChannel.Clocked | apu.go:84-106 | any number of clocks keep the invariant and never change the timer, the length or the duty cycle |
| SquareChannel.RunningDown | apu.go:90-102 | while the divider is running down, n clocks lower it by n and leave the duty step alone |
| SquareChannel.DutyStepPeriod | apu.go:90-102 | from a divider at 0, a sounding channel advances its duty step once every (timer + 1) * 2 clocks |
| SquareChannel.Square.constructor | apu.go:26-41 | a new channel is the zero-valued one |
| SquareChannel.Square.WriteControl | apu.go:278-290 | the in-place control write is SquareState.WriteControl |
| SquareChannel.Square.WriteSweeps | apu.go:68-73 | the in-place sweep write is SquareState.WriteSweeps |
| SquareChannel.Square.WriteLow | apu.go:75-77 | the in-place timer-low write is SquareState.WriteLow |
| SquareChannel.Square.WriteHigh | apu.go:79-82 | the in-place timer-high write is SquareState.WriteHigh |
| SquareChannel.Square.CountDown | apu.go:138-144 | the in-place count-down is SquareState.CountDown |
| SquareChannel.Square.ApplySweep | apu.go:154-158 | the in-place sweep is SquareState.ApplySweep |
| SquareChannel.Square.Clock | apu.go:84-106 | the in-place clock is SquareState.Clock and keeps the invariant |
| TriangleChannel.TriangleState.WriteControl | apu.go:338-345 | the value is bits 6-0 (below 128), the control flag is bit 7; nothing else changes |
| TriangleChannel.TriangleState.WriteLow | apu.go:348-350 | only the timer changes, to an 11-bit value with the written low byte |
| TriangleChannel.TriangleState.WriteHigh | apu.go:353-358 | the length is the top five bits taken directly (below 32); the timer keeps only its low byte; nothing else changes |
| TriangleChannel.TriangleState.Advance | apu.go:365-370 | the sample is the table entry at the step index (in 0..15, so the fold of larger values never applies), the index moves on modulo 32; nothing else changes |
| TriangleChannel.ZeroTriangleValid | apu.go:43-51 | the zero-valued triangle satisfies the invariant |
| TriangleChannel.Advanced | apu.go:365-370 | any number of steps keep the index in 0..31 and the invariant, and change only the index and the sample |
| TriangleChannel.StepModulo | apu.go:370 | stepping an index reduced modulo 32 is stepping the unreduced one |
| TriangleChannel.ShiftByPeriod | apu.go:370 | indices 32 apart name the same step |
| TriangleChannel.CounterAfterMoves | apu.go:370 | n steps move an index n places around the table |
| TriangleChannel.AdvancedFollowsCounter | apu.go:365-370 | the triangle's index after n steps is that of n index steps |
| TriangleChannel.CounterPeriodic | apu.go:370 | 32 more steps bring any index back to the same place |
| TriangleChannel.AdvancedCounter | apu.go:365-370 | after n steps the index is (start + n) mod 32 |
| TriangleChannel.AdvancedSample | apu.go:365-370 | after n > 0 steps the sample is the table entry at the index before the last step |
| TriangleChannel.PeriodicCounter | apu.go:365-370 | 32 more effective steps return the index to where it was |
| TriangleChannel.PeriodicSample | apu.go:365-370 | 32 more effective steps repeat the same sample |
| TriangleChannel.Triangle.constructor | apu.go:43-51 | a new triangle is the zero-valued one |
| TriangleChannel.Triangle.Advance | apu.go:365-370 | the in-place step is TriangleState.Advance |
| ApuCore.Offset | apu.go:182-211 | each register sits at an offset below 256; only the $4015 flags sit at 0x15 |
| ApuCore.RegisterAt | apu.go:182-211 | a decoded register's offset is the address's low byte |
| ApuCore.RegisterDecoding | apu.go:182-211 | every register is reached at its offset from every page, and an address reaches nothing exactly when its low byte is no register's offset |
| ApuCore.ApuState.Step | apu.go:115-125 | a pulse channel is clocked when it is enabled and its timer is at least 8, and is left untouched otherwise; nothing else changes |
| ApuCore.ApuState.FrameSequencerStep | apu.go:137-169 | both pulse channels take their sequencer tick for the current frame counter; the counter drops by exactly 1 (wrapping only at the smallest int); nothing else changes |
| ApuCore.ApuState.WriteControlFlags1 | apu.go:214-246 | the five enable flags come from bits 0-4; each disabled square or triangle gets length 0; every other length and the frame counter are kept |
| ApuCore.ApuState.SilenceDisabled | apu.go:228-238 | each disabled channel's length becomes 0; nothing else changes |
| ApuCore.ApuState.WriteControlFlags2 | apu.go:268-275 | every $4017 write sets the frame counter to 4 and changes nothing else |
| ApuCore.ApuState.ReadStatus | apu.go:249-265 | bit 0 is square 1's lowest length bit; the status is 0 exactly when every length bit that survives the shifts is 0; with every length 0 or 1 it is the flag byte with square 1 at bit 0, square 2 at bit 1 and the triangle at bit 3 |
| ApuCore.ApuState.RegRead | apu.go:171-180 | a read of exactly $4015 returns the status; every other address reads 0 |
| ApuCore.ApuState.Write | apu.go:182-211 | a register write keeps the invariant; each channel register applies that channel's own register write (WriteControl, WriteSweeps, WriteLow or WriteHigh of the square or the triangle it names) and changes nothing else; $4015 is WriteControlFlags1 (the flags set, disabled lengths cleared, nothing else changed); $4017 changes only the frame counter, to 4 |
| ApuCore.ApuState.RegWrite | apu.go:182-211 | an address whose low byte is no register's changes nothing; otherwise the decoded register is written; the invariant is kept |
| ApuCore.ApuState.ClockTriangle | apu.go:360-371 | nothing changes while the triangle is disabled or its timer is not positive; otherwise exactly the triangle takes one effective step |
| ApuCore.ZeroApuValid | apu.go:53-66 | the zero-valued chip satisfies the invariant |
| ApuCore.FrameStepped | apu.go:137-169 | any number of sequencer ticks keep the invariant and never touch the triangle |
| ApuCore.FrameCounterCountsDown | apu.go:168 | n sequencer ticks lower the frame counter by exactly n while it stays a Go int: it is never reloaded |
| ApuCore.NoCountDownBelowFour | apu.go:137-152 | once the frame counter is below 4, ticks never change a length counter |
| ApuCore.LengthsCountDownOnce | apu.go:137-169 | after a $4017 write, n ticks lower each pulse length exactly once (stopping at 0), leave the triangle length alone, and leave the counter at 4 - n |
| ApuCore.FrameSteppedShift | apu.go:137-169 | the first of n + 1 ticks can be taken first |
| ApuCore.DisablingSquare1 | apu.go:214-238 | disabling square 1 makes status bit 0 read 0, and the next oscillator step leaves the channel alone |
| ApuCore.ReenabledSquare1IsSilent | apu.go:115-125 | a disabled and re-enabled square 1 has length 0; its next step outputs 0 if its timer is at least 8, and otherwise keeps its last sample |
| ApuCore.StatusShowsRawLength | apu.go:249-265 | from power-on, enabling square 1 and writing $F8 to $4003 loads length 30, and $4015 then reads 30, not 1 |
| ApuCore.StatusNotMirroredOnRead | apu.go:171-180 | the $15 offset of any other page reaches the flag register on a write but reads 0 |
| ApuCore.Apu.constructor | apu.go:53-66 | a new chip is the zero-valued one, with fresh channels |
| ApuCore.Apu.Step | apu.go:115-125 | the in-place step is ApuState.Step |
| ApuCore.Apu.FrameSequencerStep | apu.go:137-169 | the in-place sequencer tick is ApuState.FrameSequencerStep |
| ApuCore.Apu.ReadStatus | apu.go:249-265 | the status read of the chip in place is the status of its current state; bit 0 is square 1's lowest length bit |
| ApuCore.Apu.RegRead | apu.go:171-180 | a read of the chip in place returns the status at exactly $4015 and 0 at every other address |
| ApuCore.Apu.RegWrite | apu.go:182-211 | the in-place switch on `addr & 0xFF` is ApuState.RegWrite |
| ApuCore.Apu.WriteControlFlags1 | apu.go:214-246 | the in-place $4015 write is ApuState.WriteControlFlags1 |
| ApuCore.Apu.SilenceDisabled | apu.go:228-238 | the in-place clearing of disabled lengths is ApuState.SilenceDisabled |
| ApuCore.Apu.WriteControlFlags2 | apu.go:268-275 | the in-place $4017 write is ApuState.WriteControlFlags2 |
| ApuCore.Apu.WriteSquare1Control | apu.go:278-290 | the in-place $4000 write is ApuState.Write(Square1Control) |
| ApuCore.Apu.WriteSquare1Sweeps | apu.go:293-295 | the in-place $4001 write is ApuState.Write(Square1Sweeps) |
| ApuCore.Apu.WriteSquare1Low | apu.go:298-300 | the in-place $4002 write is ApuState.Write(Square1Low) |
| ApuCore.Apu.WriteSquare1High | apu.go:303-305 | the in-place $4003 write is ApuState.Write(Square1High) |
| ApuCore.Apu.WriteSquare2Control | apu.go:308-320 | the in-place $4004 write is ApuState.Write(Square2Control) |
| ApuCore.Apu.WriteSquare2Sweeps | apu.go:323-325 | the in-place $4005 write is ApuState.Write(Square2Sweeps) |
| ApuCore.Apu.WriteSquare2Low | apu.go:328-330 | the in-place $4006 write is ApuState.Write(Square2Low) |
| ApuCore.Apu.WriteSquare2High | apu.go:333-335 | the in-place $4007 write is ApuState.Write(Square2High) |
| ApuCore.Apu.WriteTriangleControl | apu.go:338-345 | the in-place $4008 write is ApuState.Write(TriangleControl) |
| ApuCore.Apu.WriteTriangleLow | apu.go:348-350 | the in-place $400A write is ApuState.Write(TriangleLow) |
| ApuCore.Apu.WriteTriangleHigh | apu.go:353-358 | the in-place $400B write is ApuState.Write(TriangleHigh) |
| ApuCore.Apu.ClockTriangle | apu.go:360-371 | the in-place triangle clock is ApuState.ClockTriangle |

## Left out

- `PushSample` (apu.go:127-135): it mixes the two pulse samples in floating point and sends the result on a blocking Go channel. Floating point and concurrency are outside the model.
- `Init` (apu.go:108-113) and the `Output` field: they only create that channel.
- The unused fields `LastTick`, `Frequency` and `LastFrameTick`: nothing in the core reads or writes them.
- The commented-out triangle frequency formula (apu.go:357): it is not code.
- The DMC, noise and interrupt behaviour described in TODO comments (apu.go:174-175, 240-245, 257-262): it is not implemented, so there is nothing to model. The noise and DMC enable flags are modelled; they are only stored.
- ApuCore.ApuState.RegRead: returns the byte only, because the Go function's `error` result is nil on every path.
- `Word` is not defined in `apu.go`. The model takes it to be 8 bits wide, and Go's `int` to be 64 bits wide.
- SquareChannel.Square.Clock and TriangleChannel.Triangle.Advance: the duty-table lookup in the pulse clock is written as the function `Amplitude`, and the table walk of `ClockTriangle` past its gate is a method of the triangle class. Neither changes the behaviour.
- ApuCore.Apu.FrameSequencerStep and ApuCore.Apu.WriteControlFlags1: the Go code runs these statements inline on the two channels. The model groups them into the channel methods `CountDown` and `ApplySweep` and into the method `Apu.SilenceDisabled`, in the same order.
- SquareChannel.SquareState.Clock: its own contract only keeps the invariant. What a clock does is stated by the lemmas `ClockSilent`, `ClockSounding` and `ClockDivider`.
- ApuCore.Apu: the two pulse channels and the triangle are separate objects that the chip refers to. In Go they are value fields of the `Apu` struct. The invariant requires the two pulse channels to be distinct objects, which rules out aliasing.
